/**
 * The text command classifier of the sound listeners (socket_listener in
 * aqx-bot/test.py and in aqx-bot/sound.py, which share the same logic).  A
 * datagram's text is stripped of surrounding whitespace; `SAY:<text>` asks
 * for speech of everything after the first ':', the exact word `HORN` asks
 * for the horn, and anything else is ignored.
 */
module TextCommand {
  import opened Wrappers
  import opened Audio

  /**
   * The characters Python's `str.isspace()` accepts, which is what
   * `str.strip()` with no argument removes.
   */
  predicate IsSpace(c: char) {
    var n := c as int;
    (0x09 <= n <= 0x0D) || (0x1C <= n <= 0x20) || n == 0x85 || n == 0xA0 || n == 0x1680
    || (0x2000 <= n <= 0x200A) || n == 0x2028 || n == 0x2029 || n == 0x202F || n == 0x205F || n == 0x3000
  }

  predicate AllSpace(s: string) {
    forall i :: 0 <= i < |s| ==> IsSpace(s[i])
  }

  /** How many characters `s.lstrip()` drops: the run of whitespace at the front. */
  function LeadingSpaces(s: string): (n: nat)
    ensures n <= |s|
    ensures forall i :: 0 <= i < n ==> IsSpace(s[i])
    ensures n < |s| ==> !IsSpace(s[n])
    decreases |s|
  {
    if s != [] && IsSpace(s[0]) then 1 + LeadingSpaces(s[1..]) else 0
  }

  /** How many characters `s.rstrip()` drops: the run of whitespace at the back. */
  function TrailingSpaces(s: string): (n: nat)
    ensures n <= |s|
    ensures forall i :: |s| - n <= i < |s| ==> IsSpace(s[i])
    ensures n < |s| ==> !IsSpace(s[|s| - 1 - n])
    decreases |s|
  {
    if s != [] && IsSpace(s[|s| - 1]) then 1 + TrailingSpaces(s[..|s| - 1]) else 0
  }

  /**
   * `s.strip()`: the text between the leading and the trailing whitespace,
   * which neither starts nor ends with whitespace.
   */
  function Strip(s: string): (r: string)
    ensures var k := LeadingSpaces(s);
      k + |r| <= |s| && r == s[k..k + |r|]
      && (forall i :: 0 <= i < k ==> IsSpace(s[i]))
      && (forall i :: k + |r| <= i < |s| ==> IsSpace(s[i]))
    ensures r == [] || (!IsSpace(r[0]) && !IsSpace(r[|r| - 1]))
  {
    var rest := s[LeadingSpaces(s)..];
    rest[..|rest| - TrailingSpaces(rest)]
  }

  /** Leading whitespace is counted exactly up to the first other character. */
  lemma {:induction false} LeadingSpacesOf(ws: string, t: string)
    requires AllSpace(ws) && (t == [] || !IsSpace(t[0]))
    ensures LeadingSpaces(ws + t) == |ws|
    decreases |ws|
  {
    if ws == [] {
      assert ws + t == t;
    } else {
      assert (ws + t)[1..] == ws[1..] + t;
      LeadingSpacesOf(ws[1..], t);
    }
  }

  /** Trailing whitespace is counted exactly back to the last other character. */
  lemma {:induction false} TrailingSpacesOf(t: string, ws: string)
    requires AllSpace(ws) && (t == [] || !IsSpace(t[|t| - 1]))
    ensures TrailingSpaces(t + ws) == |ws|
    decreases |ws|
  {
    if ws == [] {
      assert t + ws == t;
    } else {
      assert (t + ws)[..|t + ws| - 1] == t + ws[..|ws| - 1];
      TrailingSpacesOf(t, ws[..|ws| - 1]);
    }
  }

  /** Surrounding whitespace does not matter: strip gives back the trimmed text. */
  lemma StripSurrounded(ws1: string, t: string, ws2: string)
    requires AllSpace(ws1) && AllSpace(ws2)
    requires t == [] || (!IsSpace(t[0]) && !IsSpace(t[|t| - 1]))
    ensures Strip(ws1 + t + ws2) == t
  {
    var s := ws1 + t + ws2;
    if t == [] {
      assert s == ws1 + ws2;
      assert AllSpace(ws1 + ws2);
      LeadingSpacesOf(ws1 + ws2, []);
      assert ws1 + ws2 + [] == ws1 + ws2;
    } else {
      assert s == ws1 + (t + ws2);
      LeadingSpacesOf(ws1, t + ws2);
      assert s[|ws1|..] == t + ws2;
      TrailingSpacesOf(t, ws2);
    }
  }

  /** Stripping twice is stripping once. */
  lemma StripIdempotent(s: string)
    ensures Strip(Strip(s)) == Strip(s)
  {
    var t := Strip(s);
    assert [] + t + [] == t;
    StripSurrounded([], t, []);
  }

  /** `s.startswith(prefix)`: `s` is at least as long and agrees with `prefix` position by position. */
  predicate StartsWith(s: string, prefix: string): (b: bool)
    ensures b <==> |prefix| <= |s| && forall i :: 0 <= i < |prefix| ==> s[i] == prefix[i]
    ensures b ==> s == prefix + s[|prefix|..]
  {
    |prefix| <= |s| && s[..|prefix|] == prefix
  }

  /** The position of the first `c` in `s`, if any. */
  function FirstIndex(s: string, c: char): (r: Option<nat>)
    ensures r.Some? ==> r.value < |s| && s[r.value] == c && forall k :: 0 <= k < r.value ==> s[k] != c
    ensures r.None? ==> forall k :: 0 <= k < |s| ==> s[k] != c
    decreases |s|
  {
    if s == [] then None
    else if s[0] == c then Some(0)
    else
      match FirstIndex(s[1..], c)
      case None => None
      case Some(i) => Some(i + 1)
  }

  /**
   * `s.split(sep, 1)`: two parts around the first `sep`, or `s` alone when
   * it has none; joining the parts with `sep` gives `s` back.
   */
  function SplitOnce(s: string, sep: char): (parts: seq<string>)
    ensures |parts| == 1 || |parts| == 2
    ensures |parts| == 2 <==> sep in s
    ensures |parts| == 1 ==> parts[0] == s
    ensures |parts| == 2 ==> s == parts[0] + [sep] + parts[1] && sep !in parts[0]
  {
    match FirstIndex(s, sep)
    case None => [s]
    case Some(i) =>
      assert s == s[..i] + [sep] + s[i + 1..];
      [s[..i], s[i + 1..]]
  }

  /**
   * The action one datagram's text asks for: at most one, speech taking
   * precedence over the horn, and nothing for any other text.
   */
  function Classify(msg: string): (r: Option<SoundCall>)
    ensures r.Some? ==> r.value.Speak? || r.value == Horn
    ensures r.Some? && r.value.Speak? <==> StartsWith(Strip(msg), "SAY:")
    ensures r == Some(Horn) <==> Strip(msg) == "HORN"
    ensures r.None? <==> !StartsWith(Strip(msg), "SAY:") && Strip(msg) != "HORN"
  {
    var m := Strip(msg);
    if StartsWith(m, "SAY:") then
      assert m[3] == ':';
      var parts := SplitOnce(m, ':');
      Some(Speak(parts[1]))
    else if m == "HORN" then Some(Horn)
    else None
  }

  /**
   * Speech is everything after the first ':', which for a `SAY:` message is
   * the stripped text minus its four-character prefix, colons and all.
   */
  lemma SayPayload(msg: string)
    requires StartsWith(Strip(msg), "SAY:")
    ensures Classify(msg) == Some(Speak(Strip(msg)[4..]))
  {
    var m := Strip(msg);
    assert m[..4] == "SAY:";
    assert m[0] == 'S' && m[1] == 'A' && m[2] == 'Y' && m[3] == ':';
    var i := FirstIndex(m, ':');
    assert i.Some? && i.value == 3 by {
      assert m[0] != ':' && m[1] != ':' && m[2] != ':';
    }
    assert SplitOnce(m, ':')[1] == m[4..];
  }

  /** The word HORN with any whitespace around it sounds the horn. */
  lemma HornSurrounded(ws1: string, ws2: string)
    requires AllSpace(ws1) && AllSpace(ws2)
    ensures Classify(ws1 + "HORN" + ws2) == Some(Horn)
  {
    StripSurrounded(ws1, "HORN", ws2);
  }

  /** Speech keeps later colons and the text's own inner spacing. */
  lemma SayKeepsColons(ws1: string, ws2: string)
    requires AllSpace(ws1) && AllSpace(ws2)
    ensures Classify(ws1 + "SAY:a:b" + ws2) == Some(Speak("a:b"))
  {
    StripSurrounded(ws1, "SAY:a:b", ws2);
    SayPayload(ws1 + "SAY:a:b" + ws2);
  }

  /** Trimmed text that neither starts with `SAY:` nor is `HORN` asks for nothing. */
  lemma TrimmedOtherIgnored(t: string)
    requires t != [] && !IsSpace(t[0]) && !IsSpace(t[|t| - 1])
    requires !StartsWith(t, "SAY:") && t != "HORN"
    ensures Classify(t) == None
  {
    StripSurrounded([], t, []);
    assert [] + t + [] == t;
  }

  /** The horn word must match exactly and is case-sensitive. */
  lemma HornNearMissesIgnored()
    ensures Classify("HORN!") == None
    ensures Classify("horn") == None
  {
    TrimmedOtherIgnored("HORN!");
    TrimmedOtherIgnored("horn");
  }

  // ---------------------------------------------------------------------
  // The listener loop

  /**
   * What one iteration of the listener receives: a datagram's text, a
   * datagram whose bytes are not valid UTF-8 (the decode error is caught and
   * logged), or a receive timeout.
   */
  datatype SoundEvent = Text(msg: string) | Undecodable | Quiet

  /** The calls one event makes: none, or the one action its text asks for. */
  function Respond(e: SoundEvent): (r: seq<SoundCall>)
    ensures |r| <= 1
    ensures e.Text? && Classify(e.msg).Some? ==> r == [Classify(e.msg).value]
    ensures e.Text? && Classify(e.msg).None? ==> r == []
    ensures !e.Text? ==> r == []
  {
    match e
    case Text(msg) => (match Classify(msg) case Some(a) => [a] case None => [])
    case _ => []
  }

  /** The calls of a run of events, in order. */
  function Responses(events: seq<SoundEvent>): (r: seq<SoundCall>)
    ensures |r| <= |events|
    decreases |events|
  {
    if events == [] then []
    else Responses(events[..|events| - 1]) + Respond(events[|events| - 1])
  }

  lemma ResponsesExtend(events: seq<SoundEvent>, i: nat)
    requires i < |events|
    ensures Responses(events[..i + 1]) == Responses(events[..i]) + Respond(events[i])
  {
    var p := events[..i + 1];
    assert p[..|p| - 1] == events[..i] && p[|p| - 1] == events[i];
  }

  /** The body of the listener's `try` block for one event. */
  method Handle(e: SoundEvent) returns (emitted: seq<SoundCall>)
    ensures emitted == Respond(e)
  {
    emitted := [];
    if e.Text? {
      var msg := Strip(e.msg);
      if StartsWith(msg, "SAY:") {
        assert msg[3] == ':';
        emitted := [Speak(SplitOnce(msg, ':')[1])];
      } else if msg == "HORN" {
        emitted := [Horn];
      }
    }
  }

  /** socket_listener over a finite run of events: at most one action per datagram. */
  method SocketListener(events: seq<SoundEvent>) returns (actions: seq<SoundCall>)
    ensures actions == Responses(events)
    ensures |actions| <= |events|
  {
    actions := [];
    var i := 0;
    assert events[..0] == [] && Responses([]) == [];
    while i < |events|
      invariant 0 <= i <= |events|
      invariant actions == Responses(events[..i])
    {
      var emitted := Handle(events[i]);
      actions := actions + emitted;
      ResponsesExtend(events, i);
      i := i + 1;
    }
    assert events[..i] == events;
  }
}
