/**
 * The location suffix of a log line, and the Windows loop that deletes one
 * backslash of every doubled backslash in it until none is left.
 */
module FileNames {
  import opened Wrappers
  import opened LogTypes

  /** A doubled backslash starts at index `i` of `s`. */
  predicate PairAt(s: string, i: int)
  {
    0 <= i && i + 1 < |s| && s[i] == '\\' && s[i + 1] == '\\'
  }

  predicate HasDoubleBackslash(s: string)
  {
    exists i :: 0 <= i < |s| && PairAt(s, i)
  }

  /** `std::wstring::find(L"\\\\")`: the first index of a doubled backslash,
      or nothing (`npos`). */
  function FindDoubleBackslash(s: string): (r: Option<nat>)
    ensures r.Some? ==> PairAt(s, r.value)
    ensures r.Some? ==> forall j :: 0 <= j < r.value ==> !PairAt(s, j)
    ensures r.None? <==> !HasDoubleBackslash(s)
  {
    if |s| < 2 then None
    else if s[0] == '\\' && s[1] == '\\' then assert PairAt(s, 0); Some(0)
    else
      match FindDoubleBackslash(s[1..])
      case None =>
        assert forall j :: PairAt(s, j) ==> j == 0 || PairAt(s[1..], j - 1);
        None
      case Some(i) =>
        assert forall j :: 0 < j <= i ==> PairAt(s, j) == PairAt(s[1..], j - 1);
        assert PairAt(s, i + 1);
        Some(i + 1)
  }

  /** Reference definition: every run of backslashes shrinks to one. */
  function Squeeze(s: string): string
  {
    if |s| < 2 then s
    else if s[0] == '\\' && s[1] == '\\' then Squeeze(s[1..])
    else [s[0]] + Squeeze(s[1..])
  }

  lemma {:induction false} SqueezeKeepsHead(s: string)
    requires |s| > 0
    ensures |Squeeze(s)| > 0 && Squeeze(s)[0] == s[0]
  {
    if |s| >= 2 && s[0] == '\\' && s[1] == '\\' {
      SqueezeKeepsHead(s[1..]);
    }
  }

  /** The squeezed text never holds a doubled backslash. */
  lemma {:induction false} SqueezeIsPairFree(s: string)
    ensures !HasDoubleBackslash(Squeeze(s))
  {
    if |s| >= 2 {
      SqueezeIsPairFree(s[1..]);
      if !(s[0] == '\\' && s[1] == '\\') {
        var t := Squeeze(s[1..]);
        SqueezeKeepsHead(s[1..]);
        var r := [s[0]] + t;
        forall j | PairAt(r, j) ensures false {
          if j > 0 { assert PairAt(t, j - 1); }
        }
      }
    }
  }

  /** Text without a doubled backslash is left as it is. */
  lemma {:induction false} SqueezeFixesPairFree(s: string)
    requires !HasDoubleBackslash(s)
    ensures Squeeze(s) == s
  {
    if |s| >= 2 {
      assert !PairAt(s, 0);
      forall j | PairAt(s[1..], j) ensures false {
        assert PairAt(s, j + 1);
      }
      SqueezeFixesPairFree(s[1..]);
      assert s == [s[0]] + s[1..];
    }
  }

  /** Squeezing twice is squeezing once. */
  lemma SqueezeIdempotent(s: string)
    ensures Squeeze(Squeeze(s)) == Squeeze(s)
  {
    SqueezeIsPairFree(s);
    SqueezeFixesPairFree(Squeeze(s));
  }

  /** Deleting one backslash of a doubled pair does not change the squeezed
      text: this is what each pass of the collapse loop relies on. */
  lemma {:induction false} EraseOneOfPairKeepsSqueeze(s: string, i: nat)
    requires PairAt(s, i)
    ensures Squeeze(s[..i] + s[i + 1..]) == Squeeze(s)
  {
    var t := s[..i] + s[i + 1..];
    if i == 0 {
      assert t == s[1..];
    } else {
      assert t[0] == s[0] && t[1] == s[1];
      assert t[1..] == s[1..][..i - 1] + s[1..][i..];
      EraseOneOfPairKeepsSqueeze(s[1..], i - 1);
    }
  }

  /** A prefix without backslashes passes through the squeeze unchanged. */
  lemma {:induction false} SqueezeAfterPlainPrefix(p: string, s: string)
    requires forall k :: 0 <= k < |p| ==> p[k] != '\\'
    ensures Squeeze(p + s) == p + Squeeze(s)
  {
    if p == [] {
      assert p + s == s;
    } else if |p + s| < 2 {
      assert p + s == p && s == [];
    } else {
      assert (p + s)[0] == p[0] != '\\';
      assert (p + s)[1..] == p[1..] + s;
      SqueezeAfterPlainPrefix(p[1..], s);
      assert p + Squeeze(s) == [p[0]] + (p[1..] + Squeeze(s));
    }
  }

  /** The `while` loop of `PrintError` on Windows: erase one backslash at the
      first doubled backslash while there is one. Each pass makes the text
      one character shorter, so the loop ends. */
  method CollapseDoubleBackslash(s: string) returns (r: string)
    ensures r == Squeeze(s)
    ensures !HasDoubleBackslash(r)
    ensures |r| <= |s|
  {
    r := s;
    var at := FindDoubleBackslash(r);
    while at.Some?
      invariant at == FindDoubleBackslash(r)
      invariant Squeeze(r) == Squeeze(s)
      invariant |r| <= |s|
      decreases |r|
    {
      EraseOneOfPairKeepsSqueeze(r, at.value);
      r := r[..at.value] + r[at.value + 1..];
      at := FindDoubleBackslash(r);
    }
    SqueezeFixesPairFree(r);
  }

  /** Reference definition of the location suffix: `" in "` and the file
      name, squeezed on Windows, then `"(Line %u)"` when a line is given.
      No file name, no suffix. */
  function LocationSuffix(p: Platform, fileName: Option<string>, line: nat): string
  {
    match fileName
    case None => ""
    case Some(name) =>
      (if p == Windows then Squeeze(" in " + name) else " in " + name)
      + (if line > 0 then "(Line %u)" else "")
  }

  /** The suffix is `" in "`, the (squeezed) name and the optional line
      placeholder, and on Windows it holds no doubled backslash. */
  lemma LocationSuffixShape(p: Platform, name: string, line: nat)
    ensures var n := if p == Windows then Squeeze(name) else name;
      LocationSuffix(p, Some(name), line)
        == " in " + n + (if line > 0 then "(Line %u)" else "")
    ensures p == Windows ==> !HasDoubleBackslash(Squeeze(" in " + name))
  {
    SqueezeAfterPlainPrefix(" in ", name);
    SqueezeIsPairFree(" in " + name);
  }
}
