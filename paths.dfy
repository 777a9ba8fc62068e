/**
 * A Unix `std::path::Path` as the sequence of components `Path::components()`
 * yields, with the two pieces of the path API the viewer relies on:
 * `file_name`/`extension`, and the total order `entries.sort()` uses.
 */
module Paths {
  import opened Common

  /**
   * One path component, in the declaration order of Rust's `Component`
   * (whose derived `Ord` ranks the variants first); the Windows `Prefix`
   * variant does not occur on Unix and is left out.
   */
  datatype Component = RootDir | CurDir | ParentDir | Normal(name: string)

  /** A path, already split into components (`a//b/./c` is `[a, b, c]`). */
  type Path = seq<Component>

  /** `Path::join` with a single file name: it is pushed as the last component. */
  function Join(dir: Path, name: string): (r: Path)
    ensures |r| == |dir| + 1 && r[..|dir|] == dir && r[|dir|] == Normal(name)
  {
    dir + [Normal(name)]
  }

  // ---------------------------------------------------------------- file names

  /** `Path::file_name`: the last component when it is a normal one. */
  function FileName(p: Path): (r: Option<string>)
    ensures r.Some? <==> |p| > 0 && p[|p| - 1].Normal?
    ensures r.Some? ==> r.value == p[|p| - 1].name
  {
    if |p| > 0 && p[|p| - 1].Normal? then Some(p[|p| - 1].name) else None
  }

  /** Position of the last '.' in `s`, if any. */
  function LastDot(s: string): (r: Option<nat>)
    ensures r.None? <==> forall j :: 0 <= j < |s| ==> s[j] != '.'
    ensures r.Some? ==> r.value < |s| && s[r.value] == '.'
    ensures r.Some? ==> forall j :: r.value < j < |s| ==> s[j] != '.'
  {
    if |s| == 0 then None
    else if s[|s| - 1] == '.' then Some(|s| - 1)
    else LastDot(s[..|s| - 1])
  }

  /**
   * The extension half of `rsplit_file_at_dot`: the text after the last
   * dot, unless the name is `..`, has no dot, or its only dot leads it.
   */
  function SplitExtension(name: string): (r: Option<string>)
    ensures r.Some? <==> name != ".." && exists i :: 0 < i < |name| && name[i] == '.'
    ensures r.Some? ==> forall j :: 0 <= j < |r.value| ==> r.value[j] != '.'
    ensures r.Some? ==> |r.value| + 1 < |name| && name[|name| - |r.value| - 1..] == "." + r.value
  {
    if name == ".." then None
    else match LastDot(name)
      case None => None
      case Some(i) =>
        if i == 0 then None
        else
          assert name[|name| - |name[i + 1..]| - 1..] == "." + name[i + 1..];
          Some(name[i + 1..])
  }

  /** `Path::extension`: the extension of the file name, if there is one. */
  function Extension(p: Path): (r: Option<string>)
    ensures FileName(p).None? ==> r.None?
    ensures FileName(p).Some? ==> r == SplitExtension(FileName(p).value)
  {
    match FileName(p)
    case None => None
    case Some(name) => SplitExtension(name)
  }

  /** The extension is the text after the last dot of the file name, when that dot does not lead it. */
  lemma ExtensionAfterLastDot(p: Path, name: string, i: nat)
    requires |p| > 0 && p[|p| - 1] == Normal(name)
    requires name != ".." && 0 < i < |name| && name[i] == '.'
    requires forall j :: i < j < |name| ==> name[j] != '.'
    ensures Extension(p) == Some(name[i + 1..])
  {
    assert LastDot(name) == Some(i);
  }

  /** The extension is taken after the last dot, case kept; a trailing dot gives an empty one. */
  lemma ExtensionExamples()
    ensures Extension([Normal("x.CU8")]) == Some("CU8")
    ensures Extension([RootDir, Normal("d"), Normal("rec.tar.cu8")]) == Some("cu8")
    ensures Extension([Normal("x.")]) == Some("")
  {
    ExtensionAfterLastDot([Normal("x.CU8")], "x.CU8", 1);
    assert "x.CU8"[2..] == "CU8";
    ExtensionAfterLastDot([RootDir, Normal("d"), Normal("rec.tar.cu8")], "rec.tar.cu8", 7);
    assert "rec.tar.cu8"[8..] == "cu8";
    ExtensionAfterLastDot([Normal("x.")], "x.", 1);
  }

  /** No extension: a leading dot only, no dot, no file name, an empty path. */
  lemma ExtensionAbsent()
    ensures Extension([Normal(".cu8")]) == None
    ensures Extension([Normal("cu8")]) == None
    ensures Extension([Normal("d"), ParentDir]) == None
    ensures Extension([]) == None
  {
    assert LastDot(".cu8") == Some(0) by {
      assert ".cu8"[0] == '.';
    }
    assert LastDot("cu8") == None;
  }

  // ------------------------------------------------------------------ ordering

  /** Lexicographic order on strings, character by character (byte order for UTF-8). */
  predicate StrLe(a: string, b: string)
  {
    |a| == 0 || (|b| > 0 && (if a[0] == b[0] then StrLe(a[1..], b[1..]) else a[0] < b[0]))
  }

  function Rank(c: Component): nat
  {
    match c
    case RootDir => 0
    case CurDir => 1
    case ParentDir => 2
    case Normal(_) => 3
  }

  /** The derived `Ord` of `Component`: variant first, then the name. */
  predicate ComponentLe(a: Component, b: Component)
  {
    Rank(a) < Rank(b) || (Rank(a) == Rank(b) && (a.Normal? ==> StrLe(a.name, b.name)))
  }

  /** The `Ord` of `Path`: lexicographic over the components. */
  predicate PathLe(p: Path, q: Path)
  {
    |p| == 0 || (|q| > 0 && (if p[0] == q[0] then PathLe(p[1..], q[1..]) else ComponentLe(p[0], q[0])))
  }

  lemma {:induction false} StrLeTotal(a: string, b: string)
    ensures StrLe(a, b) || StrLe(b, a)
  {
    if |a| > 0 && |b| > 0 && a[0] == b[0] {
      StrLeTotal(a[1..], b[1..]);
    }
  }

  lemma {:induction false} StrLeAntisymmetric(a: string, b: string)
    requires StrLe(a, b) && StrLe(b, a)
    ensures a == b
  {
    if |a| > 0 {
      StrLeAntisymmetric(a[1..], b[1..]);
      assert a == [a[0]] + a[1..] && b == [b[0]] + b[1..];
    }
  }

  lemma {:induction false} StrLeTransitive(a: string, b: string, c: string)
    requires StrLe(a, b) && StrLe(b, c)
    ensures StrLe(a, c)
  {
    if |a| > 0 && a[0] == b[0] && b[0] == c[0] {
      StrLeTransitive(a[1..], b[1..], c[1..]);
    }
  }

  lemma ComponentLeTotal(a: Component, b: Component)
    ensures ComponentLe(a, b) || ComponentLe(b, a)
  {
    if a.Normal? && b.Normal? {
      StrLeTotal(a.name, b.name);
    }
  }

  lemma ComponentLeAntisymmetric(a: Component, b: Component)
    requires ComponentLe(a, b) && ComponentLe(b, a)
    ensures a == b
  {
    if a.Normal? && b.Normal? {
      StrLeAntisymmetric(a.name, b.name);
    }
  }

  lemma ComponentLeTransitive(a: Component, b: Component, c: Component)
    requires ComponentLe(a, b) && ComponentLe(b, c)
    ensures ComponentLe(a, c)
  {
    if a.Normal? && b.Normal? && c.Normal? {
      StrLeTransitive(a.name, b.name, c.name);
    }
  }

  lemma {:induction false} PathLeTotal(p: Path, q: Path)
    ensures PathLe(p, q) || PathLe(q, p)
  {
    if |p| > 0 && |q| > 0 {
      if p[0] == q[0] {
        PathLeTotal(p[1..], q[1..]);
      } else {
        ComponentLeTotal(p[0], q[0]);
      }
    }
  }

  lemma {:induction false} PathLeAntisymmetric(p: Path, q: Path)
    requires PathLe(p, q) && PathLe(q, p)
    ensures p == q
  {
    if |p| > 0 {
      if p[0] == q[0] {
        PathLeAntisymmetric(p[1..], q[1..]);
        assert p == [p[0]] + p[1..] && q == [q[0]] + q[1..];
      } else {
        ComponentLeAntisymmetric(p[0], q[0]);
      }
    }
  }

  lemma {:induction false} PathLeTransitive(p: Path, q: Path, r: Path)
    requires PathLe(p, q) && PathLe(q, r)
    ensures PathLe(p, r)
  {
    if |p| > 0 {
      if p[0] == q[0] && q[0] == r[0] {
        PathLeTransitive(p[1..], q[1..], r[1..]);
      } else if p[0] != q[0] && q[0] != r[0] {
        ComponentLeTransitive(p[0], q[0], r[0]);
        if p[0] == r[0] {
          ComponentLeAntisymmetric(p[0], q[0]);
        }
      }
    }
  }

  lemma PathLeReflexive(p: Path)
    ensures PathLe(p, p)
  {
    PathLeTotal(p, p);
  }

  lemma PathOrderExamples()
    ensures PathLe([Normal("a"), Normal("b")], [Normal("a.b")])
    ensures !PathLe([Normal("a.b")], [Normal("a"), Normal("b")])
    ensures PathLe([RootDir, Normal("z")], [Normal("a")])
    ensures PathLe([Normal("a")], [Normal("a"), Normal("b")])
  {
  }
}
