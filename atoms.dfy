/**
  The values the render passes work on: evaluated constants, atoms (a type
  path, the variables set on this instance, and a map location) and sprite
  descriptors, with the object-tree queries the passes make.

  The object tree is abstract: the subtype test between a path and a parent
  path is a parameter `sub`, and the value a type gives a variable it
  inherits is the `typeVar` lookup of an `ObjectTree`.
*/
module Atoms {

  import opened Wrappers

  /** An evaluated literal. A float is kept as a real number. Every other
      kind of value (a list, a `new` call, a prefab reference, a typed null)
      is `Other`, carrying a rendering of the value, so that two different
      values stay different. */
  datatype Constant =
    | Null
    | String(text: string)
    | Resource(resource: string)
    | Int(intValue: int)
    | Float(floatValue: real)
    | Other(repr: string)

  /** `sub(path, parent)`: the type `path` is `parent` or one of its subtypes. */
  type Subpath = (string, string) -> bool

  /** The inherited value of a variable for a type path. */
  datatype ObjectTree = ObjectTree(typeVar: (string, string) -> Constant)

  datatype Loc = Loc(x: nat, y: nat, z: nat)

  /** A live instance: its type path, the variables set on it, its location. */
  datatype Atom = Atom(path: string, vars: map<string, Constant>, loc: Loc)

  /** The part of a sprite the passes touch, plus its icon and state. */
  datatype Sprite = Sprite(icon: string, iconState: string, plane: int, layer: int)

  predicate IsType(sub: Subpath, atom: Atom, parent: string) {
    sub(atom.path, parent)
  }

  /** The value of a variable of an atom: its own override, else the value
      its type inherits. */
  function GetVar(tree: ObjectTree, atom: Atom, name: string): Constant {
    if name in atom.vars then atom.vars[name] else tree.typeVar(atom.path, name)
  }

  /** The atom with one variable overridden. */
  function SetVar(atom: Atom, name: string, value: Constant): (r: Atom)
    ensures r.path == atom.path && r.loc == atom.loc
  {
    atom.(vars := atom.vars[name := value])
  }

  /** Reading a variable back after setting it: the set variable has the new
      value, every other keeps the value it had. */
  lemma GetAfterSet(tree: ObjectTree, atom: Atom, name: string, value: Constant, other: string)
    ensures GetVar(tree, SetVar(atom, name, value), other)
         == if other == name then value else GetVar(tree, atom, other)
  {
  }

  /** A fresh atom of a type at a location, with no overrides. */
  function FromType(path: string, loc: Loc): (r: Atom)
    ensures r.path == path && r.loc == loc && r.vars == map[]
  {
    Atom(path, map[], loc)
  }

  /** Comparison of a constant with a string: a string or resource constant
      with exactly that text. */
  predicate EqualsText(c: Constant, s: string) {
    (c.String? && c.text == s) || (c.Resource? && c.resource == s)
  }

  /** The number a constant reads as, if any. */
  function ToNumber(c: Constant): (r: Option<real>)
    ensures r.Some? <==> c.Int? || c.Float?
    ensures c.Int? ==> r == Some(c.intValue as real)
    ensures c.Float? ==> r == Some(c.floatValue)
  {
    match c
    case Int(i) => Some(i as real)
    case Float(x) => Some(x)
    case _ => None
  }

  /** Whether `word` occurs as a contiguous piece of `s`. */
  predicate Contains(s: string, word: string)
    decreases |s|
  {
    if |s| < |word| then false
    else s[..|word|] == word || Contains(s[1..], word)
  }

  /** `word` occurs in `s` starting at index `i`. */
  predicate OccursAt(s: string, word: string, i: int) {
    0 <= i && i + |word| <= |s| && s[i..i + |word|] == word
  }

  /** The scan agrees with the plain definition of a substring. */
  lemma {:induction false} ContainsIffOccurs(s: string, word: string)
    ensures Contains(s, word) <==> exists i :: OccursAt(s, word, i)
    decreases |s|
  {
    if |s| >= |word| {
      if s[..|word|] == word {
        assert OccursAt(s, word, 0);
      } else {
        ContainsIffOccurs(s[1..], word);
        if Contains(s[1..], word) {
          var i :| OccursAt(s[1..], word, i);
          assert OccursAt(s, word, i + 1);
        }
        if exists i :: OccursAt(s, word, i) {
          var i :| OccursAt(s, word, i);
          assert i > 0;
          assert OccursAt(s[1..], word, i - 1);
        }
      }
    }
  }

  /** The decimal numeral of a single digit. */
  function Digit(n: int): (s: string)
    requires 0 <= n <= 9
    ensures |s| == 1 && '0' <= s[0] <= '9' && s[0] as int - '0' as int == n
  {
    [('0' as int + n) as char]
  }
}
