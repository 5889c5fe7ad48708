/**
 * `ErrorCodeToMessage`: appends a description of a platform status code to a
 * message that is being built. The system lookup (`FormatMessageW` on
 * Windows, `strerror` and `MBSToWCSString` on the POSIX builds) is a
 * parameter: a function from the code it is given to some text or nothing.
 */
module ErrorCodes {
  import opened Wrappers
  import opened LogTypes

  const TWO_32: int := 0x1_0000_0000
  const TWO_31: int := 0x8000_0000

  /** The `(DWORD)` cast Windows applies before the lookup. */
  function AsDword(code: int): (r: int)
    ensures 0 <= r < TWO_32
    ensures (r - code) % TWO_32 == 0
  {
    code % TWO_32
  }

  /** The `(int)` cast the POSIX builds apply before `strerror`. */
  function AsInt32(code: int): (r: int)
    ensures -TWO_31 <= r < TWO_31
    ensures (r - code) % TWO_32 == 0
    ensures -TWO_31 <= code < TWO_31 ==> r == code
  {
    var m := code % TWO_32;
    if m >= TWO_31 then m - TWO_32 else m
  }

  /** The text the platform gives for a code, if any. */
  function LookupText(p: Platform, code: int, lookup: int -> Option<string>): Option<string>
  {
    if p == Windows then lookup(AsDword(code)) else lookup(AsInt32(code))
  }

  /** `pop_back`. */
  function DropLast(s: string): string
    requires |s| > 0
  {
    s[..|s| - 1]
  }

  /** Reference definition of the message after `ErrorCodeToMessage`. */
  function WithErrorCode(p: Platform, code: int, message: string, lookup: int -> Option<string>): string
  {
    if code == 0 then message
    else
      match LookupText(p, code, lookup)
      case None => message + ": %d"
      case Some(text) =>
        if p == Windows then DropLast(DropLast(message + ": " + text)) + "[%d]"
        else message + ": " + text + "[%d]"
  }

  /** The source's in-place transformation of its `Message` reference. */
  method ErrorCodeToMessage(p: Platform, code: int, message: string, lookup: int -> Option<string>)
    returns (r: string)
    ensures r == WithErrorCode(p, code, message, lookup)
  {
    r := message;
    if code == 0 {
      return;
    }
    r := r + ": ";
    if p == Windows {
      var inner := lookup(AsDword(code));
      if inner.None? {
        r := r + "%d";
      } else {
        r := r + inner.value;
        r := r[..|r| - 1];
        r := r[..|r| - 1];
        r := r + "[%d]";
      }
    } else {
      var inner := lookup(AsInt32(code));
      if inner.None? {
        r := r + "%d";
      } else {
        r := r + inner.value;
        r := r + "[%d]";
      }
    }
  }

  /** A zero code leaves the message alone; any other code keeps the message
      as a prefix and ends the result with the `%d` placeholder for the code,
      bracketed when the lookup found text. */
  lemma WithErrorCodeKeepsMessage(p: Platform, code: int, message: string, lookup: int -> Option<string>)
    ensures var r := WithErrorCode(p, code, message, lookup);
      && (code == 0 <==> r == message)
      && |message| <= |r| && r[..|message|] == message
      && (code != 0 && LookupText(p, code, lookup).None? ==> r == message + ": %d")
      && (code != 0 && LookupText(p, code, lookup).Some? ==> r[|r| - 4..] == "[%d]")
  {
    var r := WithErrorCode(p, code, message, lookup);
    if code != 0 {
      match LookupText(p, code, lookup)
      case None =>
      case Some(text) =>
        var m := message + ": " + text;
        if p == Windows {
          assert DropLast(DropLast(m)) == m[..|m| - 2];
          assert m[..|m| - 2][..|message|] == message;
        } else {
          assert r == m + "[%d]";
          assert r[..|message|] == m[..|message|];
        }
        assert |r| > |message|;
    }
  }

  /** On Windows the two trailing characters the system appends to its text
      (the period and the space) are the ones removed; the POSIX text is kept
      whole. */
  lemma WithErrorCodeStripsWindowsTail(p: Platform, code: int, message: string, lookup: int -> Option<string>)
    requires code != 0 && LookupText(p, code, lookup).Some?
    ensures var text := LookupText(p, code, lookup).value;
      p == Windows && |text| >= 2 ==>
        WithErrorCode(p, code, message, lookup) == message + ": " + text[..|text| - 2] + "[%d]"
    ensures var text := LookupText(p, code, lookup).value;
      p != Windows ==>
        WithErrorCode(p, code, message, lookup) == message + ": " + text + "[%d]"
  {
    var text := LookupText(p, code, lookup).value;
    if p == Windows && |text| >= 2 {
      var m := message + ": " + text;
      assert DropLast(DropLast(m)) == m[..|m| - 2] == message + ": " + text[..|text| - 2];
    }
  }

  /** The code suffix does not depend on the message it is appended to: the
      result is always the message followed by the suffix an empty message
      would get. */
  lemma WithErrorCodeIsSuffix(p: Platform, code: int, message: string, lookup: int -> Option<string>)
    ensures WithErrorCode(p, code, message, lookup) == message + WithErrorCode(p, code, [], lookup)
  {
    if code != 0 {
      match LookupText(p, code, lookup)
      case None =>
        assert [] + ": %d" == ": %d";
      case Some(text) =>
        var x := ": " + text;
        assert message + ": " + text == message + x;
        assert [] + ": " + text == x;
        if p == Windows {
          var mx := message + x;
          assert DropLast(DropLast(mx)) == mx[..|mx| - 2] == message + x[..|x| - 2];
          assert DropLast(DropLast(x)) == x[..|x| - 2];
        }
    }
  }
}
