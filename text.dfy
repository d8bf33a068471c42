/** The string handling the agents apply to a model reply: Python's `str.strip()`,
    `startswith`/`endswith`, `lower()`, `"\n".join(...)`, and the removal of a
    "```json" code fence before the reply is decoded. */
module Text {

  /** The characters Python's `str.strip()` removes (those for which `isspace()` holds). */
  predicate IsSpace(c: char)
  {
    || ('\t' <= c <= '\r')
    || ('\U{1C}' <= c <= '\U{1F}')
    || c == ' '
    || c == '\U{85}'
    || c == '\U{A0}'
    || c == '\U{1680}'
    || ('\U{2000}' <= c <= '\U{200A}')
    || c == '\U{2028}'
    || c == '\U{2029}'
    || c == '\U{202F}'
    || c == '\U{205F}'
    || c == '\U{3000}'
  }

  ghost predicate AllSpace(s: string)
  {
    forall i :: 0 <= i < |s| ==> IsSpace(s[i])
  }

  /** Neither end of `s` is whitespace. */
  ghost predicate Stripped(s: string)
  {
    s != [] ==> !IsSpace(s[0]) && !IsSpace(s[|s| - 1])
  }

  /** The first position at or after `i` that does not hold whitespace (or `|s|`). */
  function LeftEnd(s: string, i: nat): (lo: nat)
    requires i <= |s|
    ensures i <= lo <= |s|
    ensures lo < |s| ==> !IsSpace(s[lo])
    ensures forall j :: i <= j < lo ==> IsSpace(s[j])
    decreases |s| - i
  {
    if i < |s| && IsSpace(s[i]) then LeftEnd(s, i + 1) else i
  }

  /** The end of `s[lo..j]` once its trailing whitespace is dropped. */
  function RightEnd(s: string, lo: nat, j: nat): (hi: nat)
    requires lo <= j <= |s|
    ensures lo <= hi <= j
    ensures lo < hi ==> !IsSpace(s[hi - 1])
    ensures forall k :: hi <= k < j ==> IsSpace(s[k])
    decreases j
  {
    if lo < j && IsSpace(s[j - 1]) then RightEnd(s, lo, j - 1) else j
  }

  /** Where `s.strip()` starts: the number of leading whitespace characters. */
  function StripStart(s: string): (lo: nat)
    ensures lo <= |s|
  {
    LeftEnd(s, 0)
  }

  /** Where `s.strip()` ends. */
  function StripEnd(s: string): (hi: nat)
    ensures StripStart(s) <= hi <= |s|
  {
    RightEnd(s, StripStart(s), |s|)
  }

  /** `s.strip()`: `s` without leading and trailing whitespace; what remains is a
      contiguous piece of `s` (`StripKeepsMiddle`: what is removed is whitespace). */
  function Strip(s: string): (r: string)
    ensures Stripped(r) && |r| <= |s|
  {
    s[StripStart(s)..StripEnd(s)]
  }

  /** What `strip()` removes before and after the piece it keeps is whitespace. */
  lemma StripKeepsMiddle(s: string)
    ensures Strip(s) == s[StripStart(s)..StripEnd(s)]
    ensures AllSpace(s[..StripStart(s)]) && AllSpace(s[StripEnd(s)..])
  {
    var lo, hi := StripStart(s), StripEnd(s);
    forall i | 0 <= i < lo
      ensures IsSpace(s[..lo][i])
    {
      assert s[..lo][i] == s[i];
    }
    forall i | 0 <= i < |s| - hi
      ensures IsSpace(s[hi..][i])
    {
      assert s[hi..][i] == s[hi + i];
    }
  }

  /** `LeftEnd` skips exactly a run of whitespace ending before a non-space. */
  lemma {:induction false} LeftEndAt(s: string, i: nat, lo: nat)
    requires i <= lo <= |s|
    requires forall j :: i <= j < lo ==> IsSpace(s[j])
    requires lo < |s| ==> !IsSpace(s[lo])
    ensures LeftEnd(s, i) == lo
    decreases lo - i
  {
    if i < lo {
      LeftEndAt(s, i + 1, lo);
    }
  }

  /** `RightEnd` drops exactly a run of whitespace starting after a non-space. */
  lemma {:induction false} RightEndAt(s: string, lo: nat, hi: nat, j: nat)
    requires lo <= hi <= j <= |s|
    requires forall k :: hi <= k < j ==> IsSpace(s[k])
    requires lo < hi ==> !IsSpace(s[hi - 1])
    ensures RightEnd(s, lo, j) == hi
    decreases j - hi
  {
    if hi < j {
      RightEndAt(s, lo, hi, j - 1);
    }
  }

  /** `strip()` is characterised by what it keeps: a piece with no whitespace at either
      end, with only whitespace before and after it. */
  lemma StripUnique(s: string, lo: nat, hi: nat)
    requires lo <= hi <= |s|
    requires AllSpace(s[..lo]) && AllSpace(s[hi..]) && Stripped(s[lo..hi])
    ensures Strip(s) == s[lo..hi]
  {
    assert forall j :: 0 <= j < lo ==> IsSpace(s[j]) by {
      forall j | 0 <= j < lo ensures IsSpace(s[j]) {
        assert s[..lo][j] == s[j];
      }
    }
    assert forall k :: hi <= k < |s| ==> IsSpace(s[k]) by {
      forall k | hi <= k < |s| ensures IsSpace(s[k]) {
        assert s[hi..][k - hi] == s[k];
      }
    }
    if lo < hi {
      assert s[lo..hi][0] == s[lo] && s[lo..hi][hi - lo - 1] == s[hi - 1];
      LeftEndAt(s, 0, lo);
      RightEndAt(s, lo, hi, |s|);
    } else {
      LeftEndAt(s, 0, |s|);
      RightEndAt(s, |s|, |s|, |s|);
    }
  }

  /** Stripping a string whose ends are not whitespace changes nothing. */
  lemma StripStripped(s: string)
    requires Stripped(s)
    ensures Strip(s) == s
  {
    assert s[..0] == [] && s[|s|..] == [] && s[0..|s|] == s;
    StripUnique(s, 0, |s|);
  }

  /** `strip` ignores whitespace padding on either side. */
  lemma StripPadding(ws1: string, x: string, ws2: string)
    requires AllSpace(ws1) && AllSpace(ws2)
    ensures Strip(ws1 + x + ws2) == Strip(x)
  {
    var lo, hi := StripParts(x);
    StripPaddedPiece(ws1, x, ws2, lo, hi);
  }

  /** Padding a string with whitespace leaves what `strip()` keeps of it unchanged. */
  lemma StripPaddedPiece(ws1: string, x: string, ws2: string, lo: nat, hi: nat)
    requires lo <= hi <= |x| && Stripped(x[lo..hi])
    requires AllSpace(ws1) && AllSpace(x[..lo]) && AllSpace(x[hi..]) && AllSpace(ws2)
    ensures Strip(ws1 + x + ws2) == x[lo..hi]
  {
    SpaceBefore(ws1, x, ws2, lo);
    SpaceAfter(ws1, x, ws2, hi);
    PaddedMiddle(ws1, x, ws2, lo, hi);
    StripUnique(ws1 + x + ws2, |ws1| + lo, |ws1| + hi);
  }

  /** The bounds of the piece `strip()` keeps, with the whitespace around it. */
  lemma StripParts(x: string) returns (lo: nat, hi: nat)
    ensures lo <= hi <= |x| && Strip(x) == x[lo..hi] && Stripped(x[lo..hi])
    ensures AllSpace(x[..lo]) && AllSpace(x[hi..])
  {
    lo, hi := StripStart(x), StripEnd(x);
    StripKeepsMiddle(x);
  }

  /** Whitespace padding followed by leading whitespace is all whitespace. */
  lemma SpaceBefore(ws1: string, x: string, ws2: string, lo: nat)
    requires lo <= |x| && AllSpace(ws1) && AllSpace(x[..lo])
    ensures AllSpace((ws1 + x + ws2)[..|ws1| + lo])
  {
    var t := (ws1 + x + ws2)[..|ws1| + lo];
    forall j | 0 <= j < |t| ensures IsSpace(t[j]) {
      if j < |ws1| {
        assert t[j] == ws1[j];
      } else {
        assert t[j] == x[..lo][j - |ws1|];
      }
    }
  }

  /** Trailing whitespace followed by whitespace padding is all whitespace. */
  lemma SpaceAfter(ws1: string, x: string, ws2: string, hi: nat)
    requires hi <= |x| && AllSpace(ws2) && AllSpace(x[hi..])
    ensures AllSpace((ws1 + x + ws2)[|ws1| + hi..])
  {
    var t := (ws1 + x + ws2)[|ws1| + hi..];
    forall j | 0 <= j < |t| ensures IsSpace(t[j]) {
      if j < |x| - hi {
        assert t[j] == x[hi..][j];
      } else {
        assert t[j] == ws2[j - (|x| - hi)];
      }
    }
  }

  /** Padding on the left shifts the positions of the text by its length. */
  lemma PaddedMiddle(ws1: string, x: string, ws2: string, lo: nat, hi: nat)
    requires lo <= hi <= |x|
    ensures (ws1 + x + ws2)[|ws1| + lo..|ws1| + hi] == x[lo..hi]
  {
    var t := (ws1 + x + ws2)[|ws1| + lo..|ws1| + hi];
    forall j | 0 <= j < |t| ensures t[j] == x[lo..hi][j] {
      assert t[j] == x[lo + j];
    }
  }

  predicate StartsWith(s: string, prefix: string)
  {
    |prefix| <= |s| && s[..|prefix|] == prefix
  }

  predicate EndsWith(s: string, suffix: string)
  {
    |suffix| <= |s| && s[|s| - |suffix|..] == suffix
  }

  const FenceOpen := "```json"
  const FenceClose := "```"

  /** The reply (already stripped) is wrapped in a "```json" ... "```" fence. */
  predicate IsFenced(t: string)
  {
    StartsWith(t, FenceOpen) && EndsWith(t, FenceClose)
  }

  /** The opening and closing markers cannot overlap, so a fenced reply has at least
      ten characters and `t[7:-3]` is the text between the markers. */
  lemma FencedIsLong(t: string)
    requires IsFenced(t)
    ensures |t| >= |FenceOpen| + |FenceClose|
  {
    var k := |t| - |FenceClose|;
    assert t[k] == '`' by {
      assert t[k..][0] == t[k];
    }
    assert forall j :: 4 <= j < |t| && j < |FenceOpen| ==> t[j] == t[..|FenceOpen|][j] != '`';
  }

  /** The reply as it reaches the JSON decoder: stripped, and if it then starts with
      "```json" and ends with "```", the first 7 and last 3 characters are dropped and
      the rest is stripped again. The result never has whitespace at either end. */
  function StripFence(reply: string): (r: string)
    ensures Stripped(r)
    ensures |r| <= |reply|
  {
    var t := Strip(reply);
    if IsFenced(t) then
      FencedIsLong(t);
      Strip(t[|FenceOpen|..|t| - |FenceClose|])
    else t
  }

  /** A payload wrapped in a fence is fenced, already stripped, and its inner text is
      the payload. */
  lemma WrappedIsFenced(payload: string)
    ensures var t := FenceOpen + payload + FenceClose;
      IsFenced(t) && Strip(t) == t && t[|FenceOpen|..|t| - |FenceClose|] == payload
  {
    var t := FenceOpen + payload + FenceClose;
    assert t[..|FenceOpen|] == FenceOpen;
    assert t[|t| - |FenceClose|..] == FenceClose;
    assert t[|FenceOpen|..|t| - |FenceClose|] == payload;
    assert t[0] == '`' && t[|t| - 1] == '`';
    StripStripped(t);
  }

  /** A payload wrapped in a fence, with any whitespace around the fence, comes out as
      the stripped payload. */
  lemma FenceRoundTrip(ws1: string, payload: string, ws2: string)
    requires AllSpace(ws1) && AllSpace(ws2)
    ensures StripFence(ws1 + FenceOpen + payload + FenceClose + ws2) == Strip(payload)
  {
    var reply := ws1 + FenceOpen + payload + FenceClose + ws2;
    var fenced := FenceOpen + payload + FenceClose;
    assert reply == ws1 + fenced + ws2;
    StripPadding(ws1, fenced, ws2);
    WrappedIsFenced(payload);
    FencedReply(reply, fenced, payload);
  }

  /** A reply that strips to a fence around `payload` comes out as the stripped payload. */
  lemma FencedReply(reply: string, fenced: string, payload: string)
    requires Strip(reply) == fenced && IsFenced(fenced)
    requires fenced[|FenceOpen|..|fenced| - |FenceClose|] == payload
    ensures StripFence(reply) == Strip(payload)
  {
    FencedIsLong(fenced);
    assert StripFence(reply) == Strip(fenced[|FenceOpen|..|fenced| - |FenceClose|]);
  }

  /** A reply that is not fenced after stripping is only stripped: in particular, prose
      in front of a fence keeps the fence in the text handed to the decoder. */
  lemma UnfencedIsOnlyStripped(reply: string)
    requires !IsFenced(Strip(reply))
    ensures StripFence(reply) == Strip(reply)
  {
  }

  /** A reply that is a bare JSON object (it starts with '{' once stripped) reaches
      the decoder exactly as stripped. */
  lemma BareObjectUnchanged(reply: string)
    requires Strip(reply) != [] && Strip(reply)[0] == '{'
    ensures StripFence(reply) == Strip(reply)
  {
    assert Strip(reply)[0] != FenceOpen[0];
  }

  /** The text before a fence is not searched: "Sure! ```json{}```" is decoded whole. */
  lemma ProseBeforeFenceIsKept()
    ensures StripFence("Sure! ```json{}```") == "Sure! ```json{}```"
  {
    var s := "Sure! ```json{}```";
    StripStripped(s);
    assert s[..7] != FenceOpen by {
      assert s[0] == 'S';
    }
  }

  /** ASCII `lower()` of one character. */
  function LowerChar(c: char): (r: char)
    ensures 'A' <= c <= 'Z' ==> 'a' <= r <= 'z'
    ensures !('A' <= c <= 'Z') ==> r == c
  {
    if 'A' <= c <= 'Z' then (c as int - 'A' as int + 'a' as int) as char else c
  }

  /** `s.lower()` (case mappings outside ASCII are not modelled). */
  function Lower(s: string): (r: string)
    ensures |r| == |s|
    ensures forall i :: 0 <= i < |s| ==> r[i] == LowerChar(s[i])
  {
    seq(|s|, i requires 0 <= i < |s| => LowerChar(s[i]))
  }

  /** Lowering twice is lowering once, so "equal ignoring case" compares lowered texts. */
  lemma LowerIdempotent(s: string)
    ensures Lower(Lower(s)) == Lower(s)
  {
  }

  /** `sep.join(parts)` */
  function Join(sep: string, parts: seq<string>): (r: string)
    ensures parts == [] ==> r == ""
    ensures |parts| == 1 ==> r == parts[0]
  {
    if parts == [] then ""
    else if |parts| == 1 then parts[0]
    else parts[0] + sep + Join(sep, parts[1..])
  }

  /** One more part adds the separator and that part at the end: the separator
      stands between consecutive parts and nowhere else. */
  lemma {:induction false} JoinAppend(sep: string, parts: seq<string>, x: string)
    requires parts != []
    ensures Join(sep, parts + [x]) == Join(sep, parts) + sep + x
    decreases |parts|
  {
    var all := parts + [x];
    assert all[0] == parts[0] && all[1..] == parts[1..] + [x];
    if |parts| > 1 {
      JoinAppend(sep, parts[1..], x);
    } else {
      assert all[1..] == [x];
    }
  }
}
