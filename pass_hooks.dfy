/**
  The render-pass hooks and the eight passes whose hooks are modelled.

  A pass is polymorphic over seven hooks. Each hook below dispatches on the
  pass and falls back to the neutral default for every pass that does not
  override it: keep the atom, expand nothing, change nothing, add nothing.

  Arguments the source takes by mutable reference (the expansion output,
  the underlay and overlay lists, an atom whose variables are adjusted, a
  sprite) are in-out values here: the hook receives the old value and
  returns the new one.
*/
module PassHooks {

  import opened Wrappers
  import opened Atoms

  datatype Pass = HideSpace | HideAreas | HideInvisible | FakeGlass | Pretty | Wires | Pipes | FancyLayers

  // ---------------------------------------------------------------------
  // Filters

  /** The path filter: only hide-areas overrides it, and it drops every
      path under the area branch. */
  function PathFilter(pass: Pass, sub: Subpath, path: string): (keep: bool)
    ensures !keep <==> pass == HideAreas && sub(path, "/area/")
  {
    match pass
    case HideAreas => !sub(path, "/area/")
    case _ => true
  }

  /** The atom's `invisibility` as a number; a missing or non-numeric value
      counts as zero. */
  function Invisibility(tree: ObjectTree, atom: Atom): real {
    match ToNumber(GetVar(tree, atom, "invisibility"))
    case Some(x) => x
    case None => 0.0
  }

  /** A disguised item: the balloon icon and state on a type other than the
      balloon itself. */
  predicate DisguisedAsBalloon(sub: Subpath, tree: ObjectTree, atom: Atom) {
    && EqualsText(GetVar(tree, atom, "icon"), "icons/obj/items_and_weapons.dmi")
    && EqualsText(GetVar(tree, atom, "icon_state"), "syndballoon")
    && !IsType(sub, atom, "/obj/item/toy/syndicateballoon/")
  }

  /** The early filter: only hide-invisible overrides it. */
  function EarlyFilter(pass: Pass, sub: Subpath, tree: ObjectTree, atom: Atom): (keep: bool)
    ensures pass != HideInvisible ==> keep
    ensures pass == HideInvisible ==>
      (!keep <==>
        || Invisibility(tree, atom) > 60.0
        || IsType(sub, atom, "/obj/effect/mapping_helpers/")
        || DisguisedAsBalloon(sub, tree, atom))
  {
    match pass
    case HideInvisible =>
      if Invisibility(tree, atom) > 60.0 || IsType(sub, atom, "/obj/effect/mapping_helpers/") then
        false
      else if DisguisedAsBalloon(sub, tree, atom) then
        false
      else
        true
    case _ => true
  }

  /** The late filter: hide-space drops open space, and the two diagnostic
      passes keep only their own branch. */
  function LateFilter(pass: Pass, sub: Subpath, atom: Atom): (keep: bool)
    ensures pass == HideSpace ==> (keep <==> !IsType(sub, atom, "/turf/open/space/"))
    ensures pass == Wires ==> (keep <==> IsType(sub, atom, "/obj/structure/cable/"))
    ensures pass == Pipes ==> (keep <==> IsType(sub, atom, "/obj/machinery/atmospherics/pipe/"))
    ensures pass !in {HideSpace, Wires, Pipes} ==> keep
  {
    match pass
    case HideSpace => !IsType(sub, atom, "/turf/open/space/")
    case Wires => IsType(sub, atom, "/obj/structure/cable/")
    case Pipes => IsType(sub, atom, "/obj/machinery/atmospherics/pipe/")
    case _ => true
  }

  // ---------------------------------------------------------------------
  // Expansion

  /** The expand hook: hide-space replaces a placeholder turf by a fresh
      open-space turf at the same location and consumes the placeholder. */
  method Expand(pass: Pass, sub: Subpath, atom: Atom, output: seq<Atom>)
    returns (consumed: bool, output': seq<Atom>)
    ensures consumed <==> pass == HideSpace && IsType(sub, atom, "/turf/template_noop/")
    ensures consumed ==> output' == output + [FromType("/turf/open/space", atom.loc)]
    ensures !consumed ==> output' == output
  {
    output' := output;
    consumed := false;
    if pass == HideSpace {
      if IsType(sub, atom, "/turf/template_noop/") {
        output' := output' + [FromType("/turf/open/space", atom.loc)];
        consumed := true;
      }
    }
  }

  /** Hide-space leaves nothing of a placeholder: the placeholder is
      consumed, and the one atom put in its place is itself dropped by the
      late filter, given that the open-space type counts as a subtype of its
      own branch. */
  lemma HideSpaceLeavesTransparency(sub: Subpath, atom: Atom, output: seq<Atom>,
                                    consumed: bool, output': seq<Atom>)
    requires sub("/turf/open/space", "/turf/open/space/")
    requires IsType(sub, atom, "/turf/template_noop/")
    requires consumed <==> IsType(sub, atom, "/turf/template_noop/")
    requires output' == output + [FromType("/turf/open/space", atom.loc)]
    ensures consumed && |output'| == |output| + 1
    ensures !LateFilter(HideSpace, sub, output'[|output|])
  {
  }

  // ---------------------------------------------------------------------
  // Variable and sprite adjustment

  /** The adjust-vars hook: pretty shows every bookcase at its first frame. */
  method AdjustVars(pass: Pass, sub: Subpath, atom: Atom) returns (atom': Atom)
    ensures pass == Pretty && IsType(sub, atom, "/obj/structure/bookcase/") ==>
      atom' == SetVar(atom, "icon_state", String("book-0"))
    ensures !(pass == Pretty && IsType(sub, atom, "/obj/structure/bookcase/")) ==> atom' == atom
  {
    atom' := atom;
    if pass == Pretty && IsType(sub, atom, "/obj/structure/bookcase/") {
      atom' := SetVar(atom', "icon_state", String("book-0"));
    }
  }

  /** A fancy-layers rule: the paths under `parent`, less those whose path
      contains `unless`, get `layer`. */
  datatype LayerRule = LayerRule(parent: string, unless: Option<string>, layer: int)

  predicate RuleMatches(sub: Subpath, rule: LayerRule, p: string) {
    sub(p, rule.parent) && (rule.unless.None? || !Contains(p, rule.unless.value))
  }

  /** The fancy-layers rules, most specific first. */
  const FancyRules: seq<LayerRule> := [
    LayerRule("/turf/open/floor/plating/", None, -10_000),
    LayerRule("/turf/open/space/", None, -10_000),
    LayerRule("/turf/closed/mineral/", None, -3_000),
    LayerRule("/turf/open/floor/", None, -2_000),
    LayerRule("/turf/closed/", None, -2_000),
    LayerRule("/turf/", None, -10_000),
    LayerRule("/obj/effect/turf_decal/", None, -1_000),
    LayerRule("/obj/structure/disposalpipe/", None, -6_000),
    LayerRule("/obj/machinery/atmospherics/pipe/", Some("visible"), -5_000),
    LayerRule("/obj/structure/cable/", None, -4_000),
    LayerRule("/obj/machinery/power/terminal/", None, -3_500),
    LayerRule("/obj/structure/lattice/", None, -8_000),
    LayerRule("/obj/machinery/navbeacon/", None, -3_000)
  ]

  /** The index of the first rule at or after `from` that matches `p`, if any. */
  function FirstMatching(rules: seq<LayerRule>, sub: Subpath, p: string, from: nat): (r: Option<nat>)
    requires from <= |rules|
    ensures r.Some? ==> from <= r.value < |rules| && RuleMatches(sub, rules[r.value], p)
    ensures r.Some? ==> forall j :: from <= j < r.value ==> !RuleMatches(sub, rules[j], p)
    ensures r.None? ==> forall j :: from <= j < |rules| ==> !RuleMatches(sub, rules[j], p)
    decreases |rules| - from
  {
    if from == |rules| then None
    else if RuleMatches(sub, rules[from], p) then Some(from)
    else FirstMatching(rules, sub, p, from + 1)
  }

  /** The layer of a fancy-layers rule, if one was found. */
  function LayerOf(i: Option<nat>): Option<int>
    requires i.Some? ==> i.value < |FancyRules|
  {
    match i
    case Some(k) => Some(FancyRules[k].layer)
    case None => None
  }

  /** The layer fancy-layers gives a type path, if any of its rules applies. */
  function FancyLayerForPath(sub: Subpath, p: string): Option<int> {
    if sub(p, "/turf/open/floor/plating/") || sub(p, "/turf/open/space/") then
      Some(-10_000)
    else if sub(p, "/turf/closed/mineral/") then
      Some(-3_000)
    else if sub(p, "/turf/open/floor/") || sub(p, "/turf/closed/") then
      Some(-2_000)
    else if sub(p, "/turf/") then
      Some(-10_000)
    else if sub(p, "/obj/effect/turf_decal/") then
      Some(-1_000)
    else if sub(p, "/obj/structure/disposalpipe/") then
      Some(-6_000)
    else if sub(p, "/obj/machinery/atmospherics/pipe/") && !Contains(p, "visible") then
      Some(-5_000)
    else if sub(p, "/obj/structure/cable/") then
      Some(-4_000)
    else if sub(p, "/obj/machinery/power/terminal/") then
      Some(-3_500)
    else if sub(p, "/obj/structure/lattice/") then
      Some(-8_000)
    else if sub(p, "/obj/machinery/navbeacon/") then
      Some(-3_000)
    else
      None
  }

  /** The if-chain of `FancyLayerForPath` is the rule table read first match
      first: a path gets the layer of the first rule it falls under, and no
      layer when it falls under none. */
  lemma FancyLayerFollowsRules(sub: Subpath, p: string)
    ensures FancyLayerForPath(sub, p) == LayerOf(FirstMatching(FancyRules, sub, p, 0))
  {
  }

  /** The adjust-sprite hook: fancy-layers puts every sprite on plane 0 and
      sets its layer when a rule applies to the atom's type. */
  method AdjustSprite(pass: Pass, sub: Subpath, atom: Atom, sprite: Sprite) returns (sprite': Sprite)
    ensures pass != FancyLayers ==> sprite' == sprite
    ensures pass == FancyLayers ==>
      && sprite'.plane == 0
      && sprite'.icon == sprite.icon && sprite'.iconState == sprite.iconState
      && sprite'.layer == match FancyLayerForPath(sub, atom.path)
                          case Some(layer) => layer
                          case None => sprite.layer
  {
    sprite' := sprite;
    if pass == FancyLayers {
      sprite' := sprite'.(plane := 0);
      var layer := FancyLayerForPath(sub, atom.path);
      if layer.Some? {
        sprite' := sprite'.(layer := layer.value);
      }
    }
  }

  // ---------------------------------------------------------------------
  // Overlays and underlays

  /** Appends a copy of the atom that differs only in its icon state. */
  method AddTo(target: seq<Atom>, atom: Atom, iconState: string) returns (target': seq<Atom>)
    ensures target' == target + [SetVar(atom, "icon_state", String(iconState))]
  {
    var copy := SetVar(atom, "icon_state", String(iconState));
    target' := target + [copy];
  }

  /** Copies of the atom, one per icon state, in order. */
  function Copies(atom: Atom, states: seq<Constant>): (r: seq<Atom>)
    ensures |r| == |states|
    ensures forall k :: 0 <= k < |r| ==> r[k] == SetVar(atom, "icon_state", states[k])
  {
    if states == [] then [] else [SetVar(atom, "icon_state", states[0])] + Copies(atom, states[1..])
  }

  /** The tank-count overlay of a dispenser: `prefix-n` for a count `n`
      between 1 and `cap`, `prefix-cap` above it, nothing for a count of
      zero or less or a value that is not an integer. */
  function TankStates(prefix: string, cap: int, count: Constant): (r: seq<Constant>)
    requires 1 <= cap <= 9
    ensures |r| <= 1
    ensures r != [] <==> count.Int? && count.intValue > 0
  {
    if count.Int? then
      if count.intValue >= cap then [String(prefix + "-" + Digit(cap))]
      else if count.intValue > 0 then [String(prefix + "-" + Digit(count.intValue))]
      else []
    else []
  }

  /** The tank overlay saturates at its cap. */
  lemma TankStatesSaturate(prefix: string, cap: int, count: Constant)
    requires 1 <= cap <= 9
    ensures count.Int? && count.intValue > 0 ==>
      var n := if count.intValue < cap then count.intValue else cap;
      TankStates(prefix, cap, count) == [String(prefix + "-" + Digit(n))]
    ensures !(count.Int? && count.intValue > 0) ==> TankStates(prefix, cap, count) == []
  {
  }

  /** A box that pretty decorates with its illustration: any box but a
      paper sack. */
  predicate IsPlainBox(sub: Subpath, atom: Atom) {
    IsType(sub, atom, "/obj/item/storage/box/") && !IsType(sub, atom, "/obj/item/storage/box/papersack/")
  }

  /** The icon states of the overlays pretty adds to an atom, in order. */
  function PrettyStates(sub: Subpath, tree: ObjectTree, atom: Atom): (r: seq<Constant>)
    ensures |r| <= 3
    ensures r != [] ==>
      || IsPlainBox(sub, atom)
      || IsType(sub, atom, "/obj/machinery/firealarm/")
      || IsType(sub, atom, "/obj/structure/tank_dispenser/")
    ensures IsPlainBox(sub, atom) ==> r == [GetVar(tree, atom, "illustration")]
    ensures !IsPlainBox(sub, atom) && IsType(sub, atom, "/obj/machinery/firealarm/") ==>
      r == [String("fire_overlay"), String("fire_0"), String("fire_off")]
    ensures (!IsPlainBox(sub, atom) && !IsType(sub, atom, "/obj/machinery/firealarm/")
             && IsType(sub, atom, "/obj/structure/tank_dispenser/")) ==>
      r == TankStates("oxygen", 4, GetVar(tree, atom, "oxygentanks"))
        + TankStates("plasma", 5, GetVar(tree, atom, "plasmatanks"))
  {
    if IsPlainBox(sub, atom) then
      [GetVar(tree, atom, "illustration")]
    else if IsType(sub, atom, "/obj/machinery/firealarm/") then
      [String("fire_overlay"), String("fire_0"), String("fire_off")]
    else if IsType(sub, atom, "/obj/structure/tank_dispenser/") then
      TankStates("oxygen", 4, GetVar(tree, atom, "oxygentanks"))
        + TankStates("plasma", 5, GetVar(tree, atom, "plasmatanks"))
    else
      []
  }

  /** The underlays fake-glass puts under an atom: for a fake glass wall, a
      plating floor and then a grille, each a copy of the wall with only its
      icon and icon state replaced; nothing for any other atom. */
  function FakeGlassUnderlays(sub: Subpath, tree: ObjectTree, atom: Atom): (r: seq<Atom>)
    ensures IsType(sub, atom, "/turf/closed/indestructible/fakeglass/") ==>
      && |r| == 2
      && IsCopyWithIcon(tree, atom, r[0], "icons/turf/floors.dmi", "plating")
      && IsCopyWithIcon(tree, atom, r[1], "icons/obj/structures.dmi", "grille")
    ensures !IsType(sub, atom, "/turf/closed/indestructible/fakeglass/") ==> r == []
  {
    if IsType(sub, atom, "/turf/closed/indestructible/fakeglass/") then
      IconCopy(tree, atom, "icons/turf/floors.dmi", "plating");
      IconCopy(tree, atom, "icons/obj/structures.dmi", "grille");
      [SetVar(SetVar(atom, "icon", String("icons/turf/floors.dmi")), "icon_state", String("plating")),
       SetVar(SetVar(atom, "icon", String("icons/obj/structures.dmi")), "icon_state", String("grille"))]
    else
      []
  }

  /** Fake-glass's overlays hook: appends the fake-glass underlays. */
  method FakeGlassOverlays(sub: Subpath, tree: ObjectTree, atom: Atom, underlays: seq<Atom>)
    returns (underlays': seq<Atom>)
    ensures underlays' == underlays + FakeGlassUnderlays(sub, tree, atom)
  {
    underlays' := underlays;
    if IsType(sub, atom, "/turf/closed/indestructible/fakeglass/") {
      var copy := SetVar(SetVar(atom, "icon", String("icons/turf/floors.dmi")), "icon_state", String("plating"));
      underlays' := underlays' + [copy];
      copy := SetVar(SetVar(atom, "icon", String("icons/obj/structures.dmi")), "icon_state", String("grille"));
      underlays' := underlays' + [copy];
    }
  }

  /** One tank counter of a dispenser: the overlay for the count, saturating
      at `cap`, when the count is a positive integer. */
  method AddTankOverlay(target: seq<Atom>, atom: Atom, prefix: string, cap: int, count: Constant)
    returns (target': seq<Atom>)
    requires 1 <= cap <= 9
    ensures target' == target + Copies(atom, TankStates(prefix, cap, count))
  {
    target' := target;
    if count.Int? {
      if count.intValue >= cap {
        target' := AddTo(target', atom, prefix + "-" + Digit(cap));
      } else if count.intValue > 0 {
        target' := AddTo(target', atom, prefix + "-" + Digit(count.intValue));
      }
    }
  }

  /** Pretty's overlays: the copies of the atom `PrettyStates` lists. */
  method PrettyOverlays(sub: Subpath, tree: ObjectTree, atom: Atom, overlays: seq<Atom>)
    returns (overlays': seq<Atom>)
    ensures overlays' == overlays + Copies(atom, PrettyStates(sub, tree, atom))
  {
    overlays' := overlays;
    if IsPlainBox(sub, atom) {
      var copy := SetVar(atom, "icon_state", GetVar(tree, atom, "illustration"));
      overlays' := overlays' + [copy];
    } else if IsType(sub, atom, "/obj/machinery/firealarm/") {
      overlays' := AddTo(overlays', atom, "fire_overlay");
      overlays' := AddTo(overlays', atom, "fire_0");
      overlays' := AddTo(overlays', atom, "fire_off");
    } else if IsType(sub, atom, "/obj/structure/tank_dispenser/") {
      var oxygen := TankStates("oxygen", 4, GetVar(tree, atom, "oxygentanks"));
      var plasma := TankStates("plasma", 5, GetVar(tree, atom, "plasmatanks"));
      overlays' := AddTankOverlay(overlays', atom, "oxygen", 4, GetVar(tree, atom, "oxygentanks"));
      overlays' := AddTankOverlay(overlays', atom, "plasma", 5, GetVar(tree, atom, "plasmatanks"));
      CopiesAppend(atom, oxygen, plasma);
    }
  }

  lemma CopiesAppend(atom: Atom, xs: seq<Constant>, ys: seq<Constant>)
    ensures Copies(atom, xs + ys) == Copies(atom, xs) + Copies(atom, ys)
  {
  }

  /** The overlays hook: fake-glass adds underlays, pretty adds overlays, and
      no pass changes the atom itself. */
  method Overlays(pass: Pass, sub: Subpath, tree: ObjectTree, atom: Atom,
                  underlays: seq<Atom>, overlays: seq<Atom>)
    returns (underlays': seq<Atom>, overlays': seq<Atom>)
    ensures pass == FakeGlass ==>
      underlays' == underlays + FakeGlassUnderlays(sub, tree, atom) && overlays' == overlays
    ensures pass == Pretty ==>
      underlays' == underlays && overlays' == overlays + Copies(atom, PrettyStates(sub, tree, atom))
    ensures pass !in {FakeGlass, Pretty} ==> underlays' == underlays && overlays' == overlays
  {
    underlays', overlays' := underlays, overlays;
    if pass == FakeGlass {
      underlays' := FakeGlassOverlays(sub, tree, atom, underlays);
    } else if pass == Pretty {
      overlays' := PrettyOverlays(sub, tree, atom, overlays);
    }
  }

  /** Setting the icon and then the icon state of an atom changes those two
      variables and nothing else. */
  lemma IconCopy(tree: ObjectTree, atom: Atom, icon: string, iconState: string)
    ensures IsCopyWithIcon(tree, atom,
      SetVar(SetVar(atom, "icon", String(icon)), "icon_state", String(iconState)), icon, iconState)
  {
    var withIcon := SetVar(atom, "icon", String(icon));
    var copy := SetVar(withIcon, "icon_state", String(iconState));
    forall name | name != "icon" && name != "icon_state"
      ensures GetVar(tree, copy, name) == GetVar(tree, atom, name)
    {
      GetAfterSet(tree, withIcon, "icon_state", String(iconState), name);
      GetAfterSet(tree, atom, "icon", String(icon), name);
    }
    GetAfterSet(tree, withIcon, "icon_state", String(iconState), "icon");
    GetAfterSet(tree, atom, "icon", String(icon), "icon");
    GetAfterSet(tree, withIcon, "icon_state", String(iconState), "icon_state");
  }

  /** `copy` is `atom` with its icon and icon state replaced, nothing else. */
  ghost predicate IsCopyWithIcon(tree: ObjectTree, atom: Atom, copy: Atom, icon: string, iconState: string) {
    && copy.path == atom.path && copy.loc == atom.loc
    && GetVar(tree, copy, "icon") == String(icon)
    && GetVar(tree, copy, "icon_state") == String(iconState)
    && forall name :: name != "icon" && name != "icon_state" ==> GetVar(tree, copy, name) == GetVar(tree, atom, name)
  }
}
