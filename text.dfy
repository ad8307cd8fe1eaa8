/**
 * The string operations the loader and the model selection rely on:
 * `str.lower()`, the substring test `sub in s`, `pathlib.Path.name` and the
 * `/` operator of `pathlib` that joins a directory and a relative path.
 */
module Text {

  predicate IsUpper(c: char) {
    'A' <= c <= 'Z'
  }

  /** Lower-cases one character; only ASCII letters are affected. */
  function LowerChar(c: char): (r: char)
    ensures !IsUpper(r)
  {
    if IsUpper(c) then (c as int + 32) as char else c
  }

  /** `s.lower()` on ASCII text. */
  function Lower(s: string): (r: string)
    ensures |r| == |s|
    ensures forall c :: c in r ==> !IsUpper(c)
  {
    if s == [] then [] else [LowerChar(s[0])] + Lower(s[1..])
  }

  /** Text without upper-case letters is left as it is by `lower()`. */
  lemma {:induction false} LowerUnchanged(s: string)
    requires forall c :: c in s ==> !IsUpper(c)
    ensures Lower(s) == s
  {
    if s != [] {
      assert s[0] in s;
      assert forall c :: c in s[1..] ==> c in s;
      LowerUnchanged(s[1..]);
      assert s == [s[0]] + s[1..];
    }
  }

  /** Python's `sub in s` for strings: `sub` occurs at some offset of `s`. */
  predicate Contains(s: string, sub: string) {
    exists i :: 0 <= i <= |s| - |sub| && OccursAt(s, sub, i)
  }

  predicate OccursAt(s: string, sub: string, i: int)
    requires 0 <= i <= |s| - |sub|
  {
    s[i..i + |sub|] == sub
  }

  lemma ContainsInfix(pre: string, sub: string, post: string)
    ensures Contains(pre + sub + post, sub)
  {
    var s := pre + sub + post;
    assert OccursAt(s, sub, |pre|) by {
      assert s[|pre|..|pre| + |sub|] == sub;
    }
  }

  /** If one character of `sub` appears nowhere in `s`, then `sub` does not occur in `s`. */
  lemma AbsentCharacter(s: string, sub: string, k: nat)
    requires k < |sub| && sub[k] !in s
    ensures !Contains(s, sub)
  {
  }

  const Separator: char := '/'

  /** `Path(p).name`: the part of `p` after its last separator. */
  function Name(p: string): (r: string)
    ensures Separator !in r
    ensures |r| <= |p| && r == p[|p| - |r|..]
  {
    if p == [] || p[|p| - 1] == Separator then []
    else Name(p[..|p| - 1]) + [p[|p| - 1]]
  }

  /** `Path(base) / rel` for a relative `rel`. */
  function Join(base: string, rel: string): string {
    base + [Separator] + rel
  }

  /** Appending one character either ends the name (a separator) or extends it. */
  lemma NameSnoc(p: string, c: char)
    ensures Name(p + [c]) == if c == Separator then [] else Name(p) + [c]
  {
  }

  /** The name of `dir/name` is `name` when `name` holds no separator: the directory plays no part. */
  lemma {:induction false} NameOfJoin(dir: string, name: string)
    requires Separator !in name
    ensures Name(Join(dir, name)) == name
    decreases |name|
  {
    if name == [] {
      assert Join(dir, name) == dir + [Separator];
      NameSnoc(dir, Separator);
    } else {
      var init, last := name[..|name| - 1], name[|name| - 1];
      assert name == init + [last];
      assert last in name;
      assert Separator !in init by {
        assert forall c :: c in init ==> c in name;
      }
      assert Join(dir, name) == Join(dir, init) + [last];
      NameOfJoin(dir, init);
      NameSnoc(Join(dir, init), last);
    }
  }

  /** Joining a base to a relative path that holds a separator does not change the name. */
  lemma {:induction false} NameOfNestedJoin(base: string, dir: string, name: string)
    requires Separator !in name
    ensures Name(Join(base, Join(dir, name))) == name
  {
    assert Join(base, Join(dir, name)) == Join(Join(base, dir), name);
    NameOfJoin(Join(base, dir), name);
  }
}
