/**
 * Sample-file classification and directory listing (src/dirs.rs): which
 * paths count as I/Q recordings, and the sorted listing of a folder.
 */
module Dirs {
  import opened Common
  import opened Paths

  /** The recognised sample-file extensions, in the order of `FORMATS`. */
  const FORMATS: seq<string> := [
    "cu4",
    "cs4",
    "cu8", "data", "complex16u",
    "cs8", "complex16s",
    "cu12",
    "cs12",
    "cu16",
    "cs16",
    "cu32",
    "cs32",
    "cu64",
    "cs64",
    "cf32", "cfile", "complex",
    "cf64",
    "sigmf"
  ]

  /** The comparison chain of `is_iq_file`, case-sensitive. */
  predicate IsIqExtension(ext: string)
  {
    ext == "cu4"
    || ext == "cs4"
    || ext == "cu8" || ext == "data" || ext == "complex16u"
    || ext == "cs8" || ext == "complex16s"
    || ext == "cu12"
    || ext == "cs12"
    || ext == "cu16"
    || ext == "cs16"
    || ext == "cu32"
    || ext == "cs32"
    || ext == "cu64"
    || ext == "cs64"
    || ext == "cf32" || ext == "cfile" || ext == "complex"
    || ext == "cf64"
    || ext == "sigmf"
  }

  /**
   * `is_iq_file`: the path has an extension and it is one of the recognised
   * ones, which are exactly the entries of `FORMATS`.
   */
  predicate IsIqFile(p: Path)
    ensures IsIqFile(p) <==> Extension(p).Some? && Extension(p).value in FORMATS
  {
    Extension(p).Some? && IsIqExtension(Extension(p).value)
  }

  /** The comparison chain accepts exactly the entries of `FORMATS`. */
  lemma IqExtensionInFormats(ext: string)
    ensures IsIqExtension(ext) <==> ext in FORMATS
  {
  }

  /** The allow-list holds twenty distinct entries. */
  lemma FormatsDistinct()
    ensures |FORMATS| == 20
    ensures forall i, j :: 0 <= i < j < |FORMATS| ==> FORMATS[i] != FORMATS[j]
  {
  }

  /** A lower-case recognised extension is accepted. */
  lemma IsIqFileAccepts()
    ensures IsIqFile([Normal("rec.cu8")])
  {
    ExtensionAfterLastDot([Normal("rec.cu8")], "rec.cu8", 3);
    assert "rec.cu8"[4..] == "cu8";
  }

  /** Only the text after the last dot of the file name decides. */
  lemma IsIqFileUsesLastDot()
    ensures IsIqFile([RootDir, Normal("tmp"), Normal("a.b.sigmf")])
  {
    ExtensionAfterLastDot([RootDir, Normal("tmp"), Normal("a.b.sigmf")], "a.b.sigmf", 3);
    assert "a.b.sigmf"[4..] == "sigmf";
  }

  /** Every recognised extension starts with a lower-case `c`, `d` or `s`. */
  lemma IqExtensionLeads(ext: string)
    requires IsIqExtension(ext)
    ensures |ext| >= 3 && (ext[0] == 'c' || ext[0] == 'd' || ext[0] == 's')
  {
  }

  /** The comparison is case-sensitive: `x.CU8` is not a sample file. */
  lemma IsIqFileCaseSensitive()
    ensures !IsIqFile([Normal("x.CU8")])
  {
    ExtensionAfterLastDot([Normal("x.CU8")], "x.CU8", 1);
    assert "x.CU8"[2..] == "CU8";
    if IsIqExtension("CU8") {
      IqExtensionLeads("CU8");
    }
  }

  /** Unknown extensions are refused. */
  lemma IsIqFileRefusesUnknown()
    ensures !IsIqFile([Normal("x.txt")])
  {
    ExtensionAfterLastDot([Normal("x.txt")], "x.txt", 1);
    assert "x.txt"[2..] == "txt";
    if IsIqExtension("txt") {
      IqExtensionLeads("txt");
    }
  }

  /** A name without a dot, or whose only dot leads it, has no extension and is refused. */
  lemma IsIqFileRefusesNoExtension()
    ensures !IsIqFile([Normal(".cu8")])
    ensures !IsIqFile([Normal("cu8")])
  {
    ExtensionAbsent();
  }

  /** A path without an extension is never a sample file. */
  lemma NoExtensionNotIq(p: Path)
    requires Extension(p).None?
    ensures !IsIqFile(p)
  {
  }

  // ------------------------------------------------------------------ listing

  /** An I/O error, opaque here. */
  datatype IoError = IoError(code: int)

  /** One entry of `fs::read_dir`, or the error reading it. */
  type Entry = Result<Path, IoError>

  /** The outcome of `fs::read_dir(dir)`: the entries in the order the system gives them. */
  type Listing = Result<seq<Entry>, IoError>

  /** `collect::<Result<Vec<_>, _>>()`: all paths, or the first error met. */
  function CollectEntries(es: seq<Entry>): (r: Result<seq<Path>, IoError>)
    ensures r.Ok? <==> forall i :: 0 <= i < |es| ==> es[i].Ok?
    ensures r.Ok? ==> |r.value| == |es| && forall i :: 0 <= i < |es| ==> r.value[i] == es[i].value
    ensures r.Err? ==> exists k :: 0 <= k < |es| && es[k] == Err(r.error) && forall j :: 0 <= j < k ==> es[j].Ok?
  {
    if |es| == 0 then Ok([])
    else if es[0].Err? then Err(es[0].error)
    else match CollectEntries(es[1..])
      case Err(e) =>
        assert forall j :: 1 <= j < |es| ==> es[j] == es[1..][j - 1];
        Err(e)
      case Ok(rest) => Ok([es[0].value] + rest)
  }

  /** The entries that pass `is_iq_file`, in listing order. */
  function FilterIq(ps: seq<Path>): (r: seq<Path>)
  {
    Filter(ps, IsIqFile)
  }

  predicate Sorted(s: seq<Path>)
  {
    forall i, j :: 0 <= i < j < |s| ==> PathLe(s[i], s[j])
  }

  /** Insert `x` before the first element it does not exceed. */
  function Insert(x: Path, s: seq<Path>): seq<Path>
  {
    if |s| == 0 then [x]
    else if PathLe(x, s[0]) then [x] + s
    else [s[0]] + Insert(x, s[1..])
  }

  /** Sorting by path, as `Vec::sort` does it: the result is the unique ordered permutation. */
  function Sort(s: seq<Path>): seq<Path>
  {
    if |s| == 0 then [] else Insert(s[0], Sort(s[1..]))
  }

  lemma {:induction false} InsertPermutes(x: Path, s: seq<Path>)
    ensures multiset(Insert(x, s)) == multiset(s) + multiset{x}
  {
    if |s| > 0 && !PathLe(x, s[0]) {
      InsertPermutes(x, s[1..]);
      assert s == [s[0]] + s[1..];
    }
  }

  lemma {:induction false} InsertSorted(x: Path, s: seq<Path>)
    requires Sorted(s)
    ensures Sorted(Insert(x, s))
  {
    if |s| > 0 {
      if PathLe(x, s[0]) {
        forall j | 1 <= j < |s| + 1 ensures PathLe(x, ([x] + s)[j]) {
          if j > 1 {
            PathLeTransitive(x, s[0], s[j - 1]);
          }
        }
      } else {
        PathLeTotal(x, s[0]);
        InsertSorted(x, s[1..]);
        InsertPermutes(x, s[1..]);
        var r := Insert(x, s[1..]);
        forall j | 0 <= j < |r| ensures PathLe(s[0], r[j]) {
          assert r[j] in multiset(r);
          if r[j] != x {
            assert r[j] in multiset(s[1..]);
            var k :| 0 <= k < |s[1..]| && s[1..][k] == r[j];
          }
        }
      }
    }
  }

  lemma {:induction false} SortSortedPermutation(s: seq<Path>)
    ensures Sorted(Sort(s))
    ensures multiset(Sort(s)) == multiset(s)
  {
    if |s| > 0 {
      SortSortedPermutation(s[1..]);
      InsertSorted(s[0], Sort(s[1..]));
      InsertPermutes(s[0], Sort(s[1..]));
      assert s == [s[0]] + s[1..];
    }
  }

  /** Two sorted arrangements of the same paths are identical: `PathLe` is antisymmetric. */
  lemma {:induction false} SortedPermutationUnique(a: seq<Path>, b: seq<Path>)
    requires Sorted(a) && Sorted(b) && multiset(a) == multiset(b)
    ensures a == b
  {
    if |a| > 0 {
      assert |b| > 0 by {
        assert a[0] in multiset(b);
      }
      assert PathLe(b[0], a[0]) by {
        assert a[0] in multiset(b);
        var k :| 0 <= k < |b| && b[k] == a[0];
        if k > 0 { } else { PathLeReflexive(a[0]); }
      }
      assert PathLe(a[0], b[0]) by {
        assert b[0] in multiset(a);
        var k :| 0 <= k < |a| && a[k] == b[0];
        if k > 0 { } else { PathLeReflexive(b[0]); }
      }
      PathLeAntisymmetric(a[0], b[0]);
      assert a == [a[0]] + a[1..] && b == [b[0]] + b[1..];
      assert multiset(a) == multiset{a[0]} + multiset(a[1..]);
      assert multiset(b) == multiset{b[0]} + multiset(b[1..]);
      assert multiset(a[1..]) == multiset(a) - multiset{a[0]};
      assert multiset(b[1..]) == multiset(b) - multiset{b[0]};
      SortedPermutationUnique(a[1..], b[1..]);
    }
  }

  /** `read_dir_iq`: every entry read, the I/Q files kept and sorted by path. */
  function ReadDirIq(listing: Listing): (r: Result<seq<Path>, IoError>)
    ensures r.Err? <==> listing.Err? || exists i :: 0 <= i < |listing.value| && listing.value[i].Err?
  {
    match listing
    case Err(e) => Err(e)
    case Ok(es) =>
      match CollectEntries(es)
      case Err(e) => Err(e)
      case Ok(ps) => Ok(Sort(FilterIq(ps)))
  }

  /**
   * On success the result is sorted and is a permutation of exactly the
   * listed I/Q files: nothing added, nothing lost.
   */
  lemma ReadDirIqSortedIqFiles(listing: Listing)
    requires ReadDirIq(listing).Ok?
    ensures listing.Ok? && forall i :: 0 <= i < |listing.value| ==> listing.value[i].Ok?
    ensures Sorted(ReadDirIq(listing).value)
    ensures multiset(ReadDirIq(listing).value) == multiset(FilterIq(CollectEntries(listing.value).value))
    ensures forall p :: p in ReadDirIq(listing).value <==> IsIqFile(p) && exists i :: 0 <= i < |listing.value| && listing.value[i] == Ok(p)
  {
    var ps := CollectEntries(listing.value).value;
    SortSortedPermutation(FilterIq(ps));
    forall p ensures p in ReadDirIq(listing).value <==> IsIqFile(p) && exists i :: 0 <= i < |listing.value| && listing.value[i] == Ok(p) {
      FilterMembers(ps, IsIqFile);
      assert p in ReadDirIq(listing).value <==> p in multiset(FilterIq(ps));
      if IsIqFile(p) && exists i :: 0 <= i < |listing.value| && listing.value[i] == Ok(p) {
        var i :| 0 <= i < |listing.value| && listing.value[i] == Ok(p);
        assert ps[i] == p;
      }
      if p in multiset(FilterIq(ps)) {
        assert p in ps;
        var i :| 0 <= i < |ps| && ps[i] == p;
        assert listing.value[i] == Ok(p);
      }
    }
  }

  /** The result does not depend on the order in which the system lists the folder. */
  lemma ReadDirIqOrderIndependent(es1: seq<Entry>, es2: seq<Entry>)
    requires multiset(es1) == multiset(es2)
    requires forall i :: 0 <= i < |es1| ==> es1[i].Ok?
    ensures ReadDirIq(Ok(es1)) == ReadDirIq(Ok(es2))
  {
    CollectPermutation(es1, es2);
    var ps1 := CollectEntries(es1).value;
    var ps2 := CollectEntries(es2).value;
    FilterIqPermutation(ps1, ps2);
    SortSortedPermutation(FilterIq(ps1));
    SortSortedPermutation(FilterIq(ps2));
    SortedPermutationUnique(Sort(FilterIq(ps1)), Sort(FilterIq(ps2)));
  }

  lemma CollectPermutation(es1: seq<Entry>, es2: seq<Entry>)
    requires multiset(es1) == multiset(es2)
    requires forall i :: 0 <= i < |es1| ==> es1[i].Ok?
    ensures CollectEntries(es1).Ok? && CollectEntries(es2).Ok?
    ensures multiset(CollectEntries(es1).value) == multiset(CollectEntries(es2).value)
  {
    forall i | 0 <= i < |es2| ensures es2[i].Ok? {
      assert es2[i] in multiset(es1);
    }
    OkValuesMultiset(es1);
    OkValuesMultiset(es2);
  }

  /** The paths of an all-`Ok` entry list, as a multiset, follow the entries. */
  lemma OkValuesMultiset(es: seq<Entry>)
    requires forall i :: 0 <= i < |es| ==> es[i].Ok?
    ensures CollectEntries(es).Ok?
    ensures forall p :: multiset(CollectEntries(es).value)[p] == multiset(es)[Ok(p)]
  {
    OkMultiset(CollectEntries(es).value, es);
  }

  lemma {:induction false} OkMultiset(ps: seq<Path>, es: seq<Entry>)
    requires |ps| == |es| && forall i :: 0 <= i < |es| ==> es[i] == Ok(ps[i])
    ensures forall p :: multiset(ps)[p] == multiset(es)[Ok(p)]
  {
    if |ps| > 0 {
      OkMultiset(ps[1..], es[1..]);
      assert ps == [ps[0]] + ps[1..];
      assert es == [es[0]] + es[1..];
    }
  }

  lemma FilterIqPermutation(ps1: seq<Path>, ps2: seq<Path>)
    requires multiset(ps1) == multiset(ps2)
    ensures multiset(FilterIq(ps1)) == multiset(FilterIq(ps2))
  {
    FilterCount(ps1, IsIqFile);
    FilterCount(ps2, IsIqFile);
  }
}
