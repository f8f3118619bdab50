# SpacemanDMM core, modelled in Dafny

This project models three parts of SpacemanDMM, a toolset for the DreamMaker
language:

- **The expression tree** of the DreamMaker parser (`ast.dfy`, module `Ast`).
  It holds the operators, type paths, prefabs, expressions, terms and follows.
  It also holds the two conversions between a term and an expression:
  - a term becomes a bare expression (no unary operators, no follows);
  - an expression becomes a term by peeling redundant parentheses recursively,
    or by boxing anything else.
- **The map renderer's render passes** (`atoms.dfy`, `pass_hooks.dfy` and
  `render_passes.dfy`; modules `Atoms`, `PassHooks` and `RenderPasses`). This
  covers:
  - the registry of twelve passes, with their names, descriptions and defaults;
  - `configure`, which selects passes from a comma-separated include list and
    exclude list;
  - the seven hooks and the eight passes defined beside the registry:
    hide-space, hide-areas, hide-invisible, fake-glass, pretty, only-powernet,
    only-pipenet and fancy-layers;
  - `add_to` and the fancy-layers table `fancy_layer_for_path`.
- **The map editor's placement tool** (`place.dfy`, module `Place`). This is the
  palette of prefabs and the selected index. It covers picking a prefab,
  adding one from the add popup, selecting and applying entries, removing
  entries while the selection follows its entry, and placing the selected
  prefab with a click.

Some inputs come from outside the model and appear as parameters:

- The object tree's subtype test is a parameter `sub: (path, parent) -> bool`.
- The value a type gives a variable it does not override is an `ObjectTree`
  lookup function.

A Rust `&mut` argument is modelled as an in-out value: the method receives the
old list, atom or sprite and returns the new one.

## Model

| member | source | states |
|---|---|---|
| Ast.AssignOpOf | src/dm/ast.rs:44-48 | no binary operator has a compound-assignment counterpart: the mapping answers `None` for every operator |
| Ast.BinaryOpOf | src/dm/ast.rs:64-68 | no assignment operator maps back to a binary operator: the mapping answers `None` for every operator |
| Ast.ExprOf | src/dm/ast.rs:117-125 | a term becomes an expression with no unary operators and no follows around exactly that term |
| Ast.TermOf | src/dm/ast.rs:157-171 | the result is never a parenthesised bare expression; a non-bare expression is boxed unchanged; a bare expression around a non-expression term yields that term |
| Ast.RoundTripIffCanonical | src/dm/ast.rs:117-171 | term → expression → term gives the term back exactly when the term is not a parenthesised bare expression (both directions) |
| Ast.RoundTripNonExpr | src/dm/ast.rs:117-171 | every term other than a parenthesised expression survives the round trip through an expression |
| Ast.TermOfIdempotent | src/dm/ast.rs:157-171 | converting an expression to a term, back to an expression and to a term again changes nothing further |
| Ast.NestedParenthesesCollapse | src/dm/ast.rs:160-163 | any number of redundant parentheses around an expression convert to the same term as the expression itself |
| Ast.TermOfKeepsMeaning | src/dm/ast.rs:157-171 | the conversion drops only redundant parentheses: its result turned back into an expression equals the input once those are stripped |
| Atoms.SetVar | src/tools/render_passes/mod.rs:125-126 | setting a variable keeps the atom's type path and location |
| Atoms.GetAfterSet | src/tools/render_passes/mod.rs:125-126 | after setting a variable, reading it gives the new value and every other variable reads as before |
| Atoms.FromType | src/tools/render_passes/mod.rs:139 | a fresh atom has the requested type and location and no overridden variables |
| Atoms.ToNumber | src/tools/render_passes/mod.rs:164 | a constant reads as a number exactly when it is an integer or a float; an integer reads as its value, a float as its value |
| Atoms.ContainsIffOccurs | src/tools/render_passes/mod.rs:292 | the substring test answers true exactly when the word occurs at some index of the path |
| PassHooks.PathFilter | src/tools/render_passes/mod.rs:153-157 | a path is dropped exactly by hide-areas, and only when it is under `/area/`; every other pass keeps every path |
| PassHooks.EarlyFilter | src/tools/render_passes/mod.rs:162-176 | hide-invisible drops an atom exactly when its invisibility exceeds 60 (a missing or non-numeric value counts as 0), or it is a mapping helper, or it wears the balloon icon and state without being the balloon; every other pass keeps every atom |
| PassHooks.LateFilter | src/tools/render_passes/mod.rs:146-148 | hide-space drops exactly open space; only-powernet keeps exactly cables (the same file, lines 250-252); only-pipenet keeps exactly pipes (lines 258-260); the other passes keep everything |
| PassHooks.Expand | src/tools/render_passes/mod.rs:133-144 | hide-space consumes exactly the placeholder turfs and appends one open-space turf at the same location; otherwise the output is unchanged and nothing is consumed |
| PassHooks.HideSpaceLeavesTransparency | src/tools/render_passes/mod.rs:133-148 | when open space counts as its own branch, the turf appended for a placeholder is itself dropped by the late filter, so no turf is drawn there |
| PassHooks.AdjustVars | src/tools/render_passes/mod.rs:205-212 | pretty sets a bookcase's icon state to `book-0`; every other atom and pass is left unchanged |
| PassHooks.FirstMatching | src/tools/render_passes/mod.rs:278-305 | the result is the index of the first layer rule that matches the path, or none when no rule matches |
| PassHooks.FancyLayerFollowsRules | src/tools/render_passes/mod.rs:278-305 | the if-chain gives a path the layer of the first matching rule of the thirteen-rule table, and no layer when no rule matches |
| PassHooks.AdjustSprite | src/tools/render_passes/mod.rs:266-275 | fancy-layers puts the sprite on plane 0, sets the fancy layer when one applies and keeps the old layer otherwise, and keeps icon and state; other passes leave the sprite unchanged |
| PassHooks.AddTo | src/tools/render_passes/mod.rs:124-128 | the target grows by exactly one copy of the atom whose icon state is the given text |
| PassHooks.Copies | src/tools/render_passes/mod.rs:124-128 | one copy per icon state, in order, each the atom with only its icon state set |
| PassHooks.TankStates | src/tools/render_passes/mod.rs:229-242 | one tank counter shows at most one state, and shows one exactly when its count is a positive integer |
| PassHooks.TankStatesSaturate | src/tools/render_passes/mod.rs:229-242 | a positive integer tank count shows `prefix-n` with n capped at the limit; zero, a negative count or a non-integer shows nothing |
| PassHooks.FakeGlassUnderlays | src/tools/render_passes/mod.rs:189-198 | a fake-glass wall gets exactly two underlays, plating and then grille, each the wall with only its icon and icon state replaced; every other atom gets none |
| PassHooks.FakeGlassOverlays | src/tools/render_passes/mod.rs:182-199 | the hook appends exactly the fake-glass underlays to the underlay list |
| PassHooks.IconCopy | src/tools/render_passes/mod.rs:190-196 | setting icon and then icon state yields a copy that differs from the atom in those two variables only |
| PassHooks.AddTankOverlay | src/tools/render_passes/mod.rs:229-242 | one tank counter appends exactly the copies its saturating count calls for |
| PassHooks.PrettyStates | src/tools/render_passes/mod.rs:220-243 | a box other than a paper sack lists exactly its illustration; otherwise a fire alarm lists exactly `fire_overlay`, `fire_0`, `fire_off` in that order; otherwise a tank dispenser lists its oxygen states and then its plasma states; at most three states, and none for any other atom |
| PassHooks.PrettyOverlays | src/tools/render_passes/mod.rs:214-244 | pretty appends one copy per state it lists: a box's illustration (except paper sacks), the three fire-alarm states, or the oxygen then plasma tank counters |
| PassHooks.CopiesAppend | src/tools/render_passes/mod.rs:228-242 | copies for two state lists in a row are the copies for the first followed by those for the second |
| PassHooks.Overlays | src/tools/render_passes/mod.rs:50-55 | fake-glass appends exactly the fake-glass underlays and leaves the overlays alone; pretty appends exactly its overlay copies and leaves the underlays alone; every other pass changes neither |
| RenderPasses.Split | src/tools/render_passes/mod.rs:99-100 | splitting at commas gives at least one piece and no piece contains a comma |
| RenderPasses.JoinSplit | src/tools/render_passes/mod.rs:99-100 | joining the pieces back with commas gives the original string |
| RenderPasses.SplitJoin | src/tools/render_passes/mod.rs:99-100 | comma-free pieces joined with commas split back into the same pieces |
| RenderPasses.Registry | src/tools/render_passes/mod.rs:83-96 | the twelve passes in application order, with their names, descriptions and defaults |
| RenderPasses.Included | src/tools/render_passes/mod.rs:106-116 | a pass named in the include list is selected; one named only in the exclude list is not; a pass is dropped only when it is not included by name and not caught by an included `all` |
| RenderPasses.Selection | src/tools/render_passes/mod.rs:105-120 | the selection is no longer than the list and every selected pass is one the precedence chain includes |
| RenderPasses.Configure | src/tools/render_passes/mod.rs:98-122 | walking the registry in order yields exactly the passes the precedence chain selects |
| RenderPasses.SelectionMembers | src/tools/render_passes/mod.rs:105-120 | a pass is in the selection exactly when it is in the registry and the precedence chain includes it |
| RenderPasses.SelectionInOrder | src/tools/render_passes/mod.rs:105-120 | the selection is a subsequence of the registry, in its order |
| RenderPasses.SelectionDistinct | src/tools/render_passes/mod.rs:105-120 | selecting from passes with distinct names gives passes with distinct names |
| RenderPasses.RegistryNamesDistinct | src/tools/render_passes/mod.rs:83-96 | no two registry entries share a name |
| RenderPasses.ConfiguredInRegistryOrder | src/tools/render_passes/mod.rs:98-122 | the configured passes come in registry order, each at most once |
| RenderPasses.ExplicitIncludeWins | src/tools/render_passes/mod.rs:106-107 | a pass named in the include list is selected, whatever the exclude list says |
| RenderPasses.ExplicitExcludeWins | src/tools/render_passes/mod.rs:108-109 | a pass named in the exclude list but not the include list is dropped, even under `all` |
| RenderPasses.UnnamedPassFollowsWildcardsThenDefault | src/tools/render_passes/mod.rs:101-116 | an unnamed pass is selected exactly when `all` is included, or `all` is not excluded and the pass is on by default |
| RenderPasses.RegistryNamesPlain | src/tools/render_passes/mod.rs:83-96 | no registry name is empty or `all` |
| RenderPasses.DefaultPasses | src/tools/render_passes/mod.rs:83-96 | every pass is on by default except only-powernet and only-pipenet |
| RenderPasses.SelectionOfSingles | src/tools/render_passes/mod.rs:105-116 | with one name in each list, the selection is the precedence chain applied to those two names |
| RenderPasses.ConfiguredByDefault | src/tools/render_passes/mod.rs:98-122 | empty include and exclude strings select exactly the default passes |
| RenderPasses.ConfiguredWithPowernet | src/tools/render_passes/mod.rs:98-122 | including only-powernet selects the default passes plus only-powernet |
| RenderPasses.ConfiguredAllButPowernet | src/tools/render_passes/mod.rs:98-122 | including `all` and excluding only-powernet selects every other pass, only-pipenet included |
| Place.IndexOf | src/editor/tools/place.rs:134-139 | the result is the index of the first entry holding the prefab, or none when no entry does |
| Place.PlaceTool.constructor | src/editor/tools/place.rs:5-9 | a new tool has an empty palette and selection 0 |
| Place.PlaceTool.Pick | src/editor/tools/place.rs:133-142 | a prefab already in the palette selects its first entry and leaves the palette alone; otherwise it is appended and selected; either way the selection holds the prefab and the old entries are unchanged |
| Place.PlaceTool.Add | src/editor/tools/place.rs:104-116 | a prefab with the chosen type and no overrides is appended and selected |
| Place.PlaceTool.Select | src/editor/tools/place.rs:46-47 | clicking an entry selects it and leaves the palette alone |
| Place.PlaceTool.Apply | src/editor/tools/place.rs:66-68 | applying an edit replaces that entry's prefab and nothing else |
| Place.Kept | src/editor/tools/place.rs:33-89 | the entries left after removal are no more than before, and each one was in the palette |
| Place.AdjustedIndex | src/editor/tools/place.rs:84-86 | the corrected adjustment never raises the selection, and a selection within the old palette stays within the new palette's length |
| Place.AdjustedIndexAsWritten | src/editor/tools/place.rs:84-86 | the written adjustment never raises the selection, and lowers it by at most the number of entries scanned |
| Place.PlaceTool.RemoveEntries | src/editor/tools/place.rs:33-89 | the palette becomes the kept entries in order; the selection drops by the number of removed entries before it, so a kept selected entry stays selected |
| Place.PlaceTool.Click | src/editor/tools/place.rs:120-131 | a click places the selected prefab exactly when the selection is in range, and places nothing otherwise |
| Place.SelectionFollowsEntry | src/editor/tools/place.rs:83-86 | after removal, the corrected index points at the same entry as before, when that entry is kept |
| Place.AsWrittenAgreesOnSingleRemoval | src/editor/tools/place.rs:83-86 | when one pass removes at most one entry, the written adjustment and the corrected one agree |
| Place.AsWrittenLosesSelection | src/editor/tools/place.rs:83-86 | with three entries, the third selected and the first two removed in one pass, the written adjustment leaves index 1 on a palette of one entry instead of 0 |

## Left out

- The rendering driver is not part of this model: the walk over map tiles, icon loading, sprite drawing and the order in which the hooks run.
- The random, spawners, transit-tube and gravity-gen passes are listed in the registry with their names and defaults. Their hooks live in modules that are not part of this model.
- The object tree is abstract. `subpath`/`istype` is the parameter `sub`, inherited variable values are a lookup function, and evaluated constants keep the kinds the passes inspect (null, string, resource, integer, float). Every other constant is `Other` with a textual rendering of its value, so two different constants never compare equal. Equality of those renderings stands in for the source's structural equality of lists, `new` calls and prefab references.
- Floating point: `f32` literals are kept as bit patterns and never interpreted, and an atom's `invisibility` is a real number. NaN and rounding are not modelled.
- Names in the model:
  - The compared text of a `Constant` is its string or resource text. This is the model's reading of the comparison between a constant and a string.
  - The prefab's variable map keeps insertion order as a sequence. Uniqueness of its keys is not enforced.
- Unchecked calls: the `Sync` bound on the pass trait and the `unwrap` on `Atom::from_type` are not modelled. The open-space type is assumed to exist.
- ImGui interaction in the placement tool is not modelled:
  - layout, icons, tooltips and the prefab editor window are left out;
  - the flags of one frame become the arguments of `Select`, `Apply` and `RemoveEntries`.
- The edit history is not modelled. `Click` reports the prefab it would place, and the undo closure is not modelled.
- PassHooks.FancyLayerForPath has no contract of its own. It is the if-chain as written; `FancyLayerFollowsRules` states its meaning against the rule table.
- Behaviours of the code that the model keeps as written:
  - `configure` silently ignores an unknown pass name in either list and raises no error;
  - the power-cable pass is registered under the name `only-powernet`;
  - `assignop` and `binop` return `None` for every operator.
- PassHooks.HideSpaceLeavesTransparency holds only when `subpath` counts the path `/turf/open/space` as part of the branch `/turf/open/space/`. The subtype test is not modelled, so this is an assumption of the lemma. Under it, the open-space turf that hide-space adds for a placeholder is itself dropped by hide-space's late filter.
- Place.PlaceTool.RemoveEntries implements the corrected selection adjustment of the finding below, not the one written at place.rs:84-85. The two agree whenever one pass removes at most one entry (`AsWrittenAgreesOnSingleRemoval`), which is what one frame's click produces.

## Findings

| source | as written | input that shows it | evidently intended | confidence | as-written member | corrected member |
|---|---|---|---|---|---|---|
| src/editor/tools/place.rs:84-86 | during removal, the selection is decremented when it exceeds the removed entry's ORIGINAL index | three entries, third selected, first two removed in the same frame: the selection ends at 1 on a one-entry palette | the selection drops by the number of removed entries before it, so it stays on the same entry | low; not executed. The removal menu is reached through one editor window at a time, so two removals in one frame need two clicks in one frame | Place.AsWrittenLosesSelection | Place.SelectionFollowsEntry |
