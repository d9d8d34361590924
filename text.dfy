/** The two string operations the request envelope relies on. */
module Text {

  /**
   * Python's whitespace test on the ASCII range: space, tab, line feed,
   * vertical tab, form feed, carriage return and the four separators
   * U+001C to U+001F.
   */
  predicate IsSpace(c: char) {
    || c == ' ' || c == '\t' || c == '\n' || c == '\r' || c == '\U{000B}' || c == '\U{000C}'
    || c == '\U{001C}' || c == '\U{001D}' || c == '\U{001E}' || c == '\U{001F}'
  }

  predicate AllSpace(s: string) {
    forall k :: 0 <= k < |s| ==> IsSpace(s[k])
  }

  /** `s` with its leading whitespace removed. */
  function TrimLeft(s: string): (r: string)
    ensures |r| <= |s|
  {
    if |s| > 0 && IsSpace(s[0]) then TrimLeft(s[1..]) else s
  }

  /** `s` with its trailing whitespace removed. */
  function TrimRight(s: string): (r: string)
    ensures |r| <= |s|
  {
    if |s| > 0 && IsSpace(s[|s| - 1]) then TrimRight(s[..|s| - 1]) else s
  }

  /** Python's `str.strip()` with no argument. */
  function Strip(s: string): (r: string)
    ensures |r| <= |s|
    ensures r == [] || (!IsSpace(r[0]) && !IsSpace(r[|r| - 1]))
  {
    var l := TrimLeft(s);
    TrimLeftRemovesSpacePrefix(s);
    TrimRightRemovesSpaceSuffix(l);
    TrimRight(l)
  }

  /** `TrimLeft` removes a whitespace prefix and keeps the rest, which starts with a non-space. */
  lemma {:induction false} TrimLeftRemovesSpacePrefix(s: string)
    ensures TrimLeft(s) == s[|s| - |TrimLeft(s)|..]
    ensures TrimLeft(s) == [] || !IsSpace(TrimLeft(s)[0])
    ensures AllSpace(s[..|s| - |TrimLeft(s)|])
    decreases |s|
  {
    if |s| > 0 && IsSpace(s[0]) {
      TrimLeftRemovesSpacePrefix(s[1..]);
      var r := TrimLeft(s);
      assert s[|s| - |r|..] == s[1..][|s| - 1 - |r|..];
      var prefix, rest := s[..|s| - |r|], s[1..][..|s| - 1 - |r|];
      forall k | 0 <= k < |prefix| ensures IsSpace(prefix[k]) {
        if k > 0 {
          assert prefix[k] == rest[k - 1];
        }
      }
    }
  }

  /** `TrimRight` removes a whitespace suffix and keeps the rest, which ends with a non-space. */
  lemma {:induction false} TrimRightRemovesSpaceSuffix(s: string)
    ensures TrimRight(s) == s[..|TrimRight(s)|]
    ensures TrimRight(s) == [] || !IsSpace(TrimRight(s)[|TrimRight(s)| - 1])
    ensures AllSpace(s[|TrimRight(s)|..])
    decreases |s|
  {
    if |s| > 0 && IsSpace(s[|s| - 1]) {
      var t := s[..|s| - 1];
      TrimRightRemovesSpaceSuffix(t);
      var r := TrimRight(s);
      assert s[..|r|] == t[..|r|];
      var suffix, rest := s[|r|..], t[|r|..];
      forall k | 0 <= k < |suffix| ensures IsSpace(suffix[k]) {
        if k < |rest| {
          assert suffix[k] == rest[k];
        }
      }
    }
  }

  /** A string made only of whitespace loses all of it to `TrimLeft`. */
  lemma {:induction false} TrimLeftAllSpace(s: string)
    requires AllSpace(s)
    ensures TrimLeft(s) == []
    decreases |s|
  {
    if |s| > 0 {
      assert AllSpace(s[1..]) by {
        forall k | 0 <= k < |s| - 1 ensures IsSpace(s[1..][k]) {
          assert s[1..][k] == s[k + 1];
        }
      }
      TrimLeftAllSpace(s[1..]);
    }
  }

  /** `Strip` keeps a contiguous middle of `s`, and what it drops on either side is whitespace. */
  lemma StripKeepsMiddle(s: string)
    ensures exists a, b :: 0 <= a <= b <= |s| && Strip(s) == s[a..b] && AllSpace(s[..a]) && AllSpace(s[b..])
  {
    var l := TrimLeft(s);
    TrimLeftRemovesSpacePrefix(s);
    TrimRightRemovesSpaceSuffix(l);
    var a := |s| - |l|;
    var b := a + |Strip(s)|;
    assert l == s[a..];
    assert Strip(s) == s[a..b];
    assert s[b..] == l[|Strip(s)|..];
  }

  /** Stripping leaves nothing exactly when the string is all whitespace (or empty). */
  lemma StripBlank(s: string)
    ensures Strip(s) == [] <==> AllSpace(s)
  {
    if AllSpace(s) {
      TrimLeftAllSpace(s);
    }
    if Strip(s) == [] {
      var l := TrimLeft(s);
      TrimLeftRemovesSpacePrefix(s);
      TrimRightRemovesSpaceSuffix(l);
      if l != [] {
        assert false;
      }
      assert s[..|s|] == s;
    }
  }

  /** `sub` occurs in `s` starting at index `i`. */
  predicate OccursAt(s: string, sub: string, i: int) {
    0 <= i && i + |sub| <= |s| && s[i..i + |sub|] == sub
  }

  /** Python's `sub in s` on strings. */
  predicate Contains(s: string, sub: string)
    ensures Contains(s, sub) ==> |sub| <= |s|
    decreases |s|
  {
    (|sub| <= |s| && s[..|sub|] == sub) || (|s| > 0 && Contains(s[1..], sub))
  }

  /** `Contains` holds exactly when `sub` occurs at some position of `s`. */
  lemma {:induction false} ContainsIffOccurs(s: string, sub: string)
    ensures Contains(s, sub) <==> exists i :: OccursAt(s, sub, i)
    decreases |s|
  {
    if |sub| <= |s| && s[..|sub|] == sub {
      assert OccursAt(s, sub, 0);
    } else if |s| > 0 {
      ContainsIffOccurs(s[1..], sub);
      if Contains(s[1..], sub) {
        var i :| OccursAt(s[1..], sub, i);
        assert s[i + 1..i + 1 + |sub|] == s[1..][i..i + |sub|];
        assert OccursAt(s, sub, i + 1);
      } else if exists i :: OccursAt(s, sub, i) {
        var i :| OccursAt(s, sub, i);
        assert i != 0;
        assert s[1..][i - 1..i - 1 + |sub|] == s[i..i + |sub|];
        assert OccursAt(s[1..], sub, i - 1);
        assert false;
      }
    }
  }
}
