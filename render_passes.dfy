/**
  The registry of render passes and the selection of passes from an
  include list and an exclude list, each a comma-separated string of pass
  names that may hold the word `all`.
*/
module RenderPasses {

  import opened PassHooks

  /** The hooks of a registry entry: one of the passes modelled here, or a
      pass defined in a module that is not part of this model (random
      spawners, object spawners, transit tubes, the gravity generator). */
  datatype PassKind = Modelled(pass: Pass) | Unmodelled

  datatype PassInfo = PassInfo(name: string, desc: string, default: bool, kind: PassKind)

  /** Every render pass, in the order passes are applied. */
  const Registry: seq<PassInfo> := [
    PassInfo("hide-space", "Do not render space tiles, instead leaving transparency.", true, Modelled(HideSpace)),
    PassInfo("hide-areas", "Do not render area icons.", true, Modelled(HideAreas)),
    PassInfo("hide-invisible", "Do not render invisible or ephemeral objects such as mapping helpers.", true, Modelled(HideInvisible)),
    PassInfo("random", "Replace random spawners with one of their possibilities.", true, Unmodelled),
    PassInfo("pretty", "Add the minor cosmetic overlays for various objects.", true, Modelled(Pretty)),
    PassInfo("spawners", "Replace object spawners with their spawned objects.", true, Unmodelled),
    PassInfo("fake-glass", "Add underlays to fake glass turfs.", true, Modelled(FakeGlass)),
    PassInfo("transit-tube", "Add overlays to connect transit tubes together.", true, Unmodelled),
    PassInfo("gravity-gen", "Expand the gravity generator to the full structure.", true, Unmodelled),
    PassInfo("only-powernet", "Render only power cables.", false, Modelled(Wires)),
    PassInfo("only-pipenet", "Render only atmospheric pipes.", false, Modelled(Pipes)),
    PassInfo("fancy-layers", "Layer atoms according to in-game rules.", true, Modelled(FancyLayers))
  ]

  // ---------------------------------------------------------------------
  // Comma-separated lists

  /** The pieces of `s` between commas, empty pieces included: the empty
      string is one empty piece. */
  function Split(s: string): (parts: seq<string>)
    ensures |parts| >= 1
    ensures forall k :: 0 <= k < |parts| ==> ',' !in parts[k]
  {
    if s == [] then [""]
    else
      var rest := Split(s[1..]);
      if s[0] == ',' then [""] + rest
      else [[s[0]] + rest[0]] + rest[1..]
  }

  /** The pieces joined back together, a comma between each two. */
  function Join(parts: seq<string>): string
    requires |parts| >= 1
  {
    if |parts| == 1 then parts[0] else parts[0] + "," + Join(parts[1..])
  }

  /** Splitting loses nothing: joining the pieces gives back the string. */
  lemma {:induction false} JoinSplit(s: string)
    ensures Join(Split(s)) == s
  {
    if s != [] {
      var rest := Split(s[1..]);
      JoinSplit(s[1..]);
      if s[0] == ',' {
        assert Split(s) == [""] + rest;
        assert Split(s)[1..] == rest;
      } else if |rest| == 1 {
        assert Split(s) == [[s[0]] + rest[0]];
      } else {
        assert Split(s)[1..] == rest[1..];
        assert Join(rest) == rest[0] + "," + Join(rest[1..]);
      }
    }
  }

  /** Splitting a comma-free piece followed by more text. */
  lemma {:induction false} SplitAfterPiece(a: string, rest: string)
    requires ',' !in a
    ensures Split(a + rest) == [a + Split(rest)[0]] + Split(rest)[1..]
  {
    if a != [] {
      SplitAfterPiece(a[1..], rest);
      assert (a + rest)[1..] == a[1..] + rest;
      assert [a[0]] + (a[1..] + Split(rest)[0]) == a + Split(rest)[0];
    } else {
      var pieces := Split(rest);
      assert a + rest == rest && a + pieces[0] == pieces[0];
      assert [pieces[0]] + pieces[1..] == pieces;
    }
  }

  /** Joining comma-free pieces and splitting again gives the pieces back. */
  lemma {:induction false} SplitJoin(parts: seq<string>)
    requires |parts| >= 1
    requires forall k :: 0 <= k < |parts| ==> ',' !in parts[k]
    ensures Split(Join(parts)) == parts
  {
    if |parts| == 1 {
      SplitAfterPiece(parts[0], "");
      assert parts[0] + "" == parts[0];
    } else {
      var tail := Join(parts[1..]);
      SplitJoin(parts[1..]);
      SplitAfterPiece(parts[0], "," + tail);
      assert ("," + tail)[1..] == tail;
      assert Split("," + tail) == [""] + parts[1..];
      assert Join(parts) == parts[0] + ("," + tail);
      assert parts[0] + "" == parts[0];
      assert parts == [parts[0]] + parts[1..];
    }
  }

  // ---------------------------------------------------------------------
  // Selection

  /** Whether a pass is selected, given the pieces of the two lists: an
      explicit include wins, then an explicit exclude, then an included
      `all`, then an excluded `all`, and otherwise the pass's default. */
  function Included(info: PassInfo, includes: seq<string>, excludes: seq<string>): (r: bool)
    ensures info.name in includes ==> r
    ensures info.name !in includes && info.name in excludes ==> !r
    ensures !r ==> info.name !in includes && ("all" !in includes || info.name in excludes)
  {
    if info.name in includes then true
    else if info.name in excludes then false
    else if "all" in includes then true
    else if "all" in excludes then false
    else info.default
  }

  /** The selected passes of `passes`, in their order. */
  function Selection(passes: seq<PassInfo>, includes: seq<string>, excludes: seq<string>): (r: seq<PassInfo>)
    ensures |r| <= |passes|
    ensures forall k :: 0 <= k < |r| ==> Included(r[k], includes, excludes)
  {
    if passes == [] then []
    else
      var last := passes[|passes| - 1];
      Selection(passes[..|passes| - 1], includes, excludes)
        + (if Included(last, includes, excludes) then [last] else [])
  }

  /** The passes the configuration strings select from the registry. */
  function Configured(includes: string, excludes: string): seq<PassInfo> {
    Selection(Registry, Split(includes), Split(excludes))
  }

  /** Builds the passes to run, walking the registry in order. */
  method Configure(includes: string, excludes: string) returns (output: seq<PassInfo>)
    ensures output == Configured(includes, excludes)
  {
    var includeNames := Split(includes);
    var excludeNames := Split(excludes);
    var includeAll := "all" in includeNames;
    var excludeAll := "all" in excludeNames;

    output := [];
    for k := 0 to |Registry|
      invariant output == Selection(Registry[..k], includeNames, excludeNames)
    {
      var pass := Registry[k];
      var included :=
        if pass.name in includeNames then true
        else if pass.name in excludeNames then false
        else if includeAll then true
        else if excludeAll then false
        else pass.default;
      if included {
        output := output + [pass];
      }
      assert Registry[..k + 1][..k] == Registry[..k];
    }
    assert Registry[..|Registry|] == Registry;
  }

  /** A pass is selected exactly when it is in the list and the precedence
      chain includes it. */
  lemma {:induction false} SelectionMembers(passes: seq<PassInfo>, includes: seq<string>, excludes: seq<string>, p: PassInfo)
    ensures p in Selection(passes, includes, excludes) <==> p in passes && Included(p, includes, excludes)
  {
    if passes != [] {
      var init := passes[..|passes| - 1];
      SelectionMembers(init, includes, excludes, p);
      assert passes == init + [passes[|passes| - 1]];
    }
  }

  /** `xs` is `ys` with some elements left out, the rest in order. */
  ghost predicate Subsequence<T>(xs: seq<T>, ys: seq<T>) {
    if xs == [] then true
    else if ys == [] then false
    else
      || (xs[|xs| - 1] == ys[|ys| - 1] && Subsequence(xs[..|xs| - 1], ys[..|ys| - 1]))
      || Subsequence(xs, ys[..|ys| - 1])
  }

  predicate DistinctNames(passes: seq<PassInfo>) {
    forall i, j :: 0 <= i < j < |passes| ==> passes[i].name != passes[j].name
  }

  /** The selection keeps the order of the list it selects from. */
  lemma {:induction false} SelectionInOrder(passes: seq<PassInfo>, includes: seq<string>, excludes: seq<string>)
    ensures Subsequence(Selection(passes, includes, excludes), passes)
  {
    if passes != [] {
      var init := passes[..|passes| - 1];
      var last := passes[|passes| - 1];
      SelectionInOrder(init, includes, excludes);
      var s := Selection(init, includes, excludes);
      if Included(last, includes, excludes) {
        assert Selection(passes, includes, excludes) == s + [last];
        assert (s + [last])[..|s|] == s;
      } else {
        assert Selection(passes, includes, excludes) == s;
        SubsequenceOfPrefix(s, passes);
      }
    }
  }

  /** A subsequence of all but the last element is a subsequence of the whole. */
  lemma SubsequenceOfPrefix<T>(xs: seq<T>, ys: seq<T>)
    requires ys != []
    requires Subsequence(xs, ys[..|ys| - 1])
    ensures Subsequence(xs, ys)
  {
  }

  /** Selecting from a list with distinct names never repeats a name. */
  lemma {:induction false} SelectionDistinct(passes: seq<PassInfo>, includes: seq<string>, excludes: seq<string>)
    requires DistinctNames(passes)
    ensures DistinctNames(Selection(passes, includes, excludes))
  {
    if passes != [] {
      var init := passes[..|passes| - 1];
      var last := passes[|passes| - 1];
      SelectionDistinct(init, includes, excludes);
      var s := Selection(init, includes, excludes);
      if Included(last, includes, excludes) {
        forall i | 0 <= i < |s| ensures s[i].name != last.name {
          SelectionMembers(init, includes, excludes, s[i]);
          var k :| 0 <= k < |init| && init[k] == s[i];
          assert passes[k] == s[i];
        }
      }
    }
  }

  /** The registry names its passes once each. */
  lemma RegistryNamesDistinct()
    ensures DistinctNames(Registry)
  {
  }

  /** The configured passes name each registry pass at most once, in the
      registry's order. */
  lemma ConfiguredInRegistryOrder(includes: string, excludes: string)
    ensures Subsequence(Configured(includes, excludes), Registry)
    ensures DistinctNames(Configured(includes, excludes))
  {
    SelectionInOrder(Registry, Split(includes), Split(excludes));
    RegistryNamesDistinct();
    SelectionDistinct(Registry, Split(includes), Split(excludes));
  }

  /** A pass named in the include list is selected, whatever the exclude
      list says. */
  lemma ExplicitIncludeWins(includes: string, excludes: string, p: PassInfo)
    requires p in Registry && p.name in Split(includes)
    ensures p in Configured(includes, excludes)
  {
    SelectionMembers(Registry, Split(includes), Split(excludes), p);
  }

  /** A pass named in the exclude list and not in the include list is never
      selected, even when the include list says `all`. */
  lemma ExplicitExcludeWins(includes: string, excludes: string, p: PassInfo)
    requires p.name in Split(excludes) && p.name !in Split(includes)
    ensures p !in Configured(includes, excludes)
  {
    SelectionMembers(Registry, Split(includes), Split(excludes), p);
  }

  /** A pass named in neither list is selected by an included `all`, else
      dropped by an excluded `all`, else selected by its default. */
  lemma UnnamedPassFollowsWildcardsThenDefault(includes: string, excludes: string, p: PassInfo)
    requires p in Registry && p.name !in Split(includes) && p.name !in Split(excludes)
    ensures p in Configured(includes, excludes) <==>
      ("all" in Split(includes) || ("all" !in Split(excludes) && p.default))
  {
    SelectionMembers(Registry, Split(includes), Split(excludes), p);
  }

  /** Every registry pass has a non-empty name other than `all`. */
  lemma RegistryNamesPlain(p: PassInfo)
    requires p in Registry
    ensures p.name != "" && p.name != "all"
  {
  }

  /** The passes that are on by default: all but the two diagnostic ones. */
  lemma DefaultPasses(p: PassInfo)
    requires p in Registry
    ensures p.default <==> p.name != "only-powernet" && p.name != "only-pipenet"
  {
  }

  /** Selection from the registry when each list is a single piece. */
  lemma SelectionOfSingles(includes: seq<string>, excludes: seq<string>, inc: string, exc: string, p: PassInfo)
    requires includes == [inc] && excludes == [exc]
    ensures p in Selection(Registry, includes, excludes) <==>
      p in Registry &&
      (if p.name == inc then true
       else if p.name == exc then false
       else if inc == "all" then true
       else if exc == "all" then false
       else p.default)
  {
    SelectionMembers(Registry, includes, excludes, p);
  }

  /** With both lists empty, exactly the default passes run. */
  lemma ConfiguredByDefault(includes: string, excludes: string, p: PassInfo)
    requires includes == "" && excludes == ""
    ensures p in Configured(includes, excludes) <==> p in Registry && p.default
  {
    assert Split(includes) == [""] && Split(excludes) == [""];
    if p in Registry {
      RegistryNamesPlain(p);
    }
    SelectionOfSingles(Split(includes), Split(excludes), "", "", p);
  }

  /** Including the power-cable pass adds it to the default passes. */
  lemma ConfiguredWithPowernet(includes: string, excludes: string, p: PassInfo)
    requires includes == "only-powernet" && excludes == ""
    ensures p in Configured(includes, excludes) <==>
      p in Registry && (p.default || p.name == "only-powernet")
  {
    assert Split(excludes) == [""];
    assert Split(includes) == ["only-powernet"] by {
      SplitJoin(["only-powernet"]);
    }
    if p in Registry {
      RegistryNamesPlain(p);
    }
    SelectionOfSingles(Split(includes), Split(excludes), "only-powernet", "", p);
  }

  /** Including everything and excluding the power-cable pass runs every
      other pass, the default-off pipe pass included. */
  lemma ConfiguredAllButPowernet(includes: string, excludes: string, p: PassInfo)
    requires includes == "all" && excludes == "only-powernet"
    ensures p in Configured(includes, excludes) <==> p in Registry && p.name != "only-powernet"
  {
    assert Split(includes) == ["all"] by {
      SplitJoin(["all"]);
    }
    assert Split(excludes) == ["only-powernet"] by {
      SplitJoin(["only-powernet"]);
    }
    SelectionOfSingles(Split(includes), Split(excludes), "all", "only-powernet", p);
  }
}
