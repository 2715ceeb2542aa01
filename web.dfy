/** What the forms see of the browser: how an awaited `fetch` ended, template strings
    with a fixed prefix, and JavaScript's string length. The network itself is not
    modelled. */
module Web {

  datatype Option<+T> = None | Some(value: T)

  /** How an awaited request ended: a response whose `ok` is true, a response whose
      `ok` is false (with what the handler reads from its body), or a rejected
      promise carrying `error.message`. */
  datatype Outcome<+B> = Ok | NotOk(body: B) | Threw(message: string)

  predicate StartsWith(s: string, prefix: string) {
    |prefix| <= |s| && s[..|prefix|] == prefix
  }

  /** The template string `${prefix}${detail}`: the detail can be read back after the prefix. */
  function Prefixed(prefix: string, detail: string): (s: string)
    ensures StartsWith(s, prefix) && s[|prefix|..] == detail
    ensures forall i :: 0 <= i < |prefix| ==> s[i] == prefix[i]
  {
    var s := prefix + detail;
    assert s[..|prefix|] == prefix;
    s
  }

  /** Two strings that start with different characters are different, and neither
      starts with the other. */
  lemma FirstCharDiffers(s: string, t: string)
    requires |s| > 0 && |t| > 0 && s[0] != t[0]
    ensures s != t && !StartsWith(s, t) && !StartsWith(t, s)
  {
  }

  /** JavaScript's `s.length`: the number of UTF-16 code units, so a character outside
      the Basic Multilingual Plane (at or above U+10000) counts twice. */
  function Utf16Length(s: string): (n: nat)
    ensures |s| <= n <= 2 * |s|
  {
    if s == [] then 0
    else (if s[0] as int >= 0x1_0000 then 2 else 1) + Utf16Length(s[1..])
  }

  /** On text made only of Basic Multilingual Plane characters, `length` counts characters. */
  lemma {:induction false} Utf16LengthOfBmpText(s: string)
    requires forall i :: 0 <= i < |s| ==> s[i] as int < 0x1_0000
    ensures Utf16Length(s) == |s|
  {
    if s != [] {
      assert forall i :: 0 <= i < |s[1..]| ==> s[1..][i] == s[i + 1];
      Utf16LengthOfBmpText(s[1..]);
    }
  }
}
