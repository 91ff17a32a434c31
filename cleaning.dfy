/**
 * Cleaning of the classifier's reply before it is parsed (chat_analyzer.py line 99):
 * `response.text.strip().removeprefix("```json").removesuffix("```")`.
 */
module Cleaning {

  const JsonFence: string := "```json"
  const Fence: string := "```"

  /** Python's `str.isspace()` for one character: the ASCII controls TAB..CR and FS..US,
      SPACE, NEXT LINE, NO-BREAK SPACE, and the Unicode space separators. */
  predicate IsSpace(c: char) {
    var x := c as int;
    (9 <= x <= 13) || (28 <= x <= 32) || x == 0x85 || x == 0xA0 || x == 0x1680
    || (0x2000 <= x <= 0x200A) || x == 0x2028 || x == 0x2029 || x == 0x202F
    || x == 0x205F || x == 0x3000
  }

  predicate AllSpace(s: string) {
    forall i :: 0 <= i < |s| ==> IsSpace(s[i])
  }

  predicate EndsWith(s: string, suffix: string) {
    |suffix| <= |s| && s[|s| - |suffix|..] == suffix
  }

  /** `str.lstrip()`: drops leading whitespace. */
  function LStrip(s: string): (r: string)
    ensures |r| <= |s|
    ensures r != [] ==> !IsSpace(r[0])
  {
    if |s| > 0 && IsSpace(s[0]) then LStrip(s[1..]) else s
  }

  /** `str.rstrip()`: drops trailing whitespace. */
  function RStrip(s: string): (r: string)
    ensures |r| <= |s|
    ensures r != [] ==> !IsSpace(r[|r| - 1])
  {
    if |s| > 0 && IsSpace(s[|s| - 1]) then RStrip(s[..|s| - 1]) else s
  }

  /** `lstrip` keeps the longest suffix whose dropped prefix is all whitespace. */
  lemma LStripShape(s: string)
    ensures var r := LStrip(s);
      && |r| <= |s| && r == s[|s| - |r|..]
      && AllSpace(s[..|s| - |r|])
      && (r != [] ==> !IsSpace(r[0]))
  {
    var d := LStripDrop(s);
    assert forall j :: 0 <= j < d ==> s[..d][j] == s[j];
  }

  /** `rstrip` keeps the longest prefix whose dropped suffix is all whitespace. */
  lemma RStripShape(s: string)
    ensures var r := RStrip(s);
      && |r| <= |s| && r == s[..|r|]
      && AllSpace(s[|r|..])
      && (r != [] ==> !IsSpace(r[|r| - 1]))
  {
    var e := RStripKeep(s);
    assert forall j :: 0 <= j < |s| - e ==> s[e..][j] == s[e + j];
  }

  /** The number of characters `lstrip` drops, all of them whitespace. */
  lemma {:induction false} LStripDrop(s: string) returns (d: nat)
    ensures d <= |s| && LStrip(s) == s[d..]
    ensures forall j :: 0 <= j < d ==> IsSpace(s[j])
    decreases |s|
  {
    if |s| > 0 && IsSpace(s[0]) {
      var d' := LStripDrop(s[1..]);
      d := d' + 1;
      assert s[1..][d'..] == s[d..];
      forall j | 0 <= j < d ensures IsSpace(s[j]) {
        if j > 0 { assert s[j] == s[1..][j - 1]; }
      }
    } else {
      d := 0;
    }
  }

  /** The number of characters `rstrip` keeps; all those after them are whitespace. */
  lemma {:induction false} RStripKeep(s: string) returns (e: nat)
    ensures e <= |s| && RStrip(s) == s[..e]
    ensures forall j :: e <= j < |s| ==> IsSpace(s[j])
    decreases |s|
  {
    if |s| > 0 && IsSpace(s[|s| - 1]) {
      var p := s[..|s| - 1];
      e := RStripKeep(p);
      assert p[..e] == s[..e];
      forall j | e <= j < |s| ensures IsSpace(s[j]) {
        if j < |s| - 1 { assert s[j] == p[j]; }
      }
    } else {
      e := |s|;
    }
  }

  /** `str.strip()`: an infix of the text that neither starts nor ends with whitespace. */
  function Strip(s: string): (r: string)
    ensures |r| <= |s|
    ensures r != [] ==> !IsSpace(r[0]) && !IsSpace(r[|r| - 1])
  {
    var l := LStrip(s);
    var r := RStrip(l);
    RStripShape(l);
    r
  }

  /** `str.removeprefix`: the prefix, when present, is put back by concatenation. */
  function RemovePrefix(s: string, prefix: string): (r: string)
    ensures prefix <= s ==> prefix + r == s
    ensures !(prefix <= s) ==> r == s
  {
    if prefix <= s then s[|prefix|..] else s
  }

  /** `str.removesuffix`: the suffix, when present, is put back by concatenation. */
  function RemoveSuffix(s: string, suffix: string): (r: string)
    ensures EndsWith(s, suffix) ==> r + suffix == s
    ensures !EndsWith(s, suffix) ==> r == s
  {
    if EndsWith(s, suffix) then s[..|s| - |suffix|] else s
  }

  /** The text handed to `json.loads`: never longer than the reply, and a reply with neither
      marker after stripping is only stripped. */
  function Clean(text: string): (r: string)
    ensures |r| <= |text|
    ensures !(JsonFence <= Strip(text)) && !EndsWith(Strip(text), Fence) ==> r == Strip(text)
  {
    RemoveSuffix(RemovePrefix(Strip(text), JsonFence), Fence)
  }

  /** Stripping leaves an infix with whitespace-only margins and no whitespace at either end. */
  lemma StripIsTrimmedInfix(s: string)
    ensures exists i, j :: 0 <= i <= j <= |s| && Strip(s) == s[i..j] && AllSpace(s[..i]) && AllSpace(s[j..])
    ensures Strip(s) != [] ==> !IsSpace(Strip(s)[0]) && !IsSpace(Strip(s)[|Strip(s)| - 1])
  {
    var l := LStrip(s);
    LStripShape(s);
    var i := |s| - |l|;
    var r := RStrip(l);
    RStripShape(l);
    var j := i + |r|;
    assert s[i..j] == l[..|r|];
    assert s[j..] == l[|r|..];
  }

  /** Whitespace around a text does not change what stripping it yields. */
  lemma StripIgnoresMargins(w1: string, t: string, w2: string)
    requires AllSpace(w1) && AllSpace(w2)
    requires t != [] && !IsSpace(t[0]) && !IsSpace(t[|t| - 1])
    ensures Strip(w1 + t + w2) == t
  {
    var tw := t + w2;
    assert w1 + t + w2 == w1 + tw;
    assert tw[0] == t[0];
    LStripDropsSpace(w1, tw);
    RStripDropsSpace(t, w2);
  }

  lemma {:induction false} LStripDropsSpace(w: string, t: string)
    requires AllSpace(w) && t != [] && !IsSpace(t[0])
    ensures LStrip(w + t) == t
    decreases |w|
  {
    if w != [] {
      assert (w + t)[1..] == w[1..] + t;
      LStripDropsSpace(w[1..], t);
    } else {
      assert w + t == t;
    }
  }

  lemma {:induction false} RStripDropsSpace(t: string, w: string)
    requires AllSpace(w) && t != [] && !IsSpace(t[|t| - 1])
    ensures RStrip(t + w) == t
    decreases |w|
  {
    if w != [] {
      assert (t + w)[..|t + w| - 1] == t + w[..|w| - 1];
      RStripDropsSpace(t, w[..|w| - 1]);
    } else {
      assert t + w == t;
    }
  }

  /** At most one leading "```json" and at most one trailing "```" are removed from the
      stripped text, each only when present. */
  lemma CleanRemovesAtMostOneFence(text: string)
    ensures var t := Strip(text);
      exists pre, post ::
        (pre == "" || pre == JsonFence) && (post == "" || post == Fence)
        && t == pre + Clean(text) + post
        && (pre == "" ==> !(JsonFence <= t))
        && (post == "" ==> !EndsWith(RemovePrefix(t, JsonFence), Fence))
  {
    var t := Strip(text);
    var pre, post := FenceSplit(t);
    assert Clean(text) == RemoveSuffix(RemovePrefix(t, JsonFence), Fence);
    assert t == pre + Clean(text) + post;
  }

  /** The markers RemovePrefix and RemoveSuffix take off a text, returned explicitly. */
  lemma FenceSplit(t: string) returns (pre: string, post: string)
    ensures pre == "" || pre == JsonFence
    ensures post == "" || post == Fence
    ensures t == pre + RemoveSuffix(RemovePrefix(t, JsonFence), Fence) + post
    ensures pre == "" ==> !(JsonFence <= t)
    ensures post == "" ==> !EndsWith(RemovePrefix(t, JsonFence), Fence)
  {
    var u := RemovePrefix(t, JsonFence);
    var c := RemoveSuffix(u, Fence);
    pre := if JsonFence <= t then JsonFence else "";
    post := if EndsWith(u, Fence) then Fence else "";
    assert t == pre + u by {
      if JsonFence <= t { assert t == t[..|JsonFence|] + t[|JsonFence|..]; }
    }
    assert u == c + post by {
      if EndsWith(u, Fence) { assert u == u[..|u| - |Fence|] + u[|u| - |Fence|..]; }
    }
    assert t == pre + c + post;
  }

  /** A payload fenced as "```json ... ```", with any whitespace around the fences, cleans to
      exactly the payload, whatever the payload is. */
  lemma CleanFencedPayload(w1: string, payload: string, w2: string)
    requires AllSpace(w1) && AllSpace(w2)
    ensures Clean(w1 + JsonFence + payload + Fence + w2) == payload
  {
    var t := JsonFence + payload + Fence;
    assert t[0] == '`' && t[|t| - 1] == '`';
    assert w1 + JsonFence + payload + Fence + w2 == w1 + t + w2;
    StripIgnoresMargins(w1, t, w2);
    assert JsonFence <= t;
    assert t[|JsonFence|..] == payload + Fence;
    assert EndsWith(payload + Fence, Fence);
    assert (payload + Fence)[..|payload + Fence| - |Fence|] == payload;
  }
}
