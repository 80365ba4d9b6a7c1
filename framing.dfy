/** Serial framing (`checkSerial`): messages travel as `<payload>`; text
    outside a frame is dropped; a payload is stored in a 32-character buffer
    whose write index stops at 31, and is handed on as the C string the
    buffer then holds. This module states which payloads a character stream
    carries; the per-character receiver is `Engine.Synth.Feed`. */
module Framing {
  import opened Fixed
  import opened Wrappers

  /** `numChars`, the size of `receivedChars`. */
  const NumChars: int := 32

  /** The characters of `s` before its first NUL: what `String(char *)` reads. */
  function CString(s: seq<char>): (r: seq<char>)
    ensures '\0' !in r
    ensures r <= s
    ensures |r| < |s| ==> s[|r|] == '\0'
  {
    if s == [] || s[0] == '\0' then [] else [s[0]] + CString(s[1..])
  }

  /** The message the firmware takes from a payload `p`: at most 31
      characters are kept (the write index stops at 31, where the NUL goes),
      read up to the first NUL. */
  function Buffered(p: seq<char>): seq<char> {
    CString(p[..Min(|p|, NumChars - 1)])
  }

  /** The payloads of the complete frames in a stream read outside a frame:
      a `<` opens a frame, and everything up to the next `>` is its payload
      (a `<` inside a frame is payload too). */
  function Frames(s: seq<char>): seq<seq<char>>
    decreases |s|
  {
    if s == [] then []
    else if s[0] == '<' then FramesIn(s[1..], [])
    else Frames(s[1..])
  }

  /** The same, read inside a frame whose payload so far is `acc`. */
  function FramesIn(s: seq<char>, acc: seq<char>): seq<seq<char>>
    decreases |s|
  {
    if s == [] then []
    else if s[0] == '>' then [acc] + Frames(s[1..])
    else FramesIn(s[1..], acc + [s[0]])
  }

  /** The payload received so far of the frame a stream leaves open, if any. */
  function OpenFrame(s: seq<char>): Option<seq<char>>
    decreases |s|
  {
    if s == [] then None
    else if s[0] == '<' then OpenFrameIn(s[1..], [])
    else OpenFrame(s[1..])
  }

  function OpenFrameIn(s: seq<char>, acc: seq<char>): Option<seq<char>>
    decreases |s|
  {
    if s == [] then Some(acc)
    else if s[0] == '>' then OpenFrame(s[1..])
    else OpenFrameIn(s[1..], acc + [s[0]])
  }

  // ---------------------------------------------------------------------
  // Properties.

  /** Feeding one more character: a `>` closes the open frame and delivers
      its payload; any other character inside a frame extends the payload;
      outside a frame, `<` opens an empty one and anything else is dropped. */
  lemma {:induction false} FramesSnoc(s: seq<char>, c: char)
    ensures Frames(s + [c]) ==
      Frames(s) + (if OpenFrame(s).Some? && c == '>' then [OpenFrame(s).value] else [])
    ensures OpenFrame(s + [c]) ==
      if OpenFrame(s).None? then (if c == '<' then Some([]) else None)
      else if c == '>' then None
      else Some(OpenFrame(s).value + [c])
    decreases |s|, 1
  {
    if s != [] {
      assert (s + [c])[1..] == s[1..] + [c];
      if s[0] == '<' {
        FramesInSnoc(s[1..], [], c);
      } else {
        FramesSnoc(s[1..], c);
      }
    }
  }

  lemma {:induction false} FramesInSnoc(s: seq<char>, acc: seq<char>, c: char)
    ensures FramesIn(s + [c], acc) ==
      FramesIn(s, acc) + (if OpenFrameIn(s, acc).Some? && c == '>' then [OpenFrameIn(s, acc).value] else [])
    ensures OpenFrameIn(s + [c], acc) ==
      if OpenFrameIn(s, acc).None? then (if c == '<' then Some([]) else None)
      else if c == '>' then None
      else Some(OpenFrameIn(s, acc).value + [c])
    decreases |s|, 0
  {
    if s == [] {
      assert [c][1..] == [];
    } else {
      assert (s + [c])[1..] == s[1..] + [c];
      if s[0] == '>' {
        FramesSnoc(s[1..], c);
      } else {
        FramesInSnoc(s[1..], acc + [s[0]], c);
      }
    }
  }

  /** A NUL ends the C string: what follows position `n` is never read. */
  lemma {:induction false} CStringStopsAtNul(s: seq<char>, n: int)
    requires 0 <= n < |s| && s[n] == '\0'
    ensures CString(s) == CString(s[..n])
  {
    if n > 0 && s[0] != '\0' {
      assert s[..n][1..] == s[1..][..n - 1];
      CStringStopsAtNul(s[1..], n - 1);
    }
  }

  /** Text containing no `<` carries no frame and leaves none open, so noise
      before a frame is dropped. */
  lemma {:induction false} FramesIgnoreNoise(junk: seq<char>, s: seq<char>)
    requires '<' !in junk
    ensures Frames(junk + s) == Frames(s)
    ensures OpenFrame(junk + s) == OpenFrame(s)
  {
    if junk != [] {
      assert (junk + s)[1..] == junk[1..] + s;
      FramesIgnoreNoise(junk[1..], s);
    } else {
      assert junk + s == s;
    }
  }

  lemma {:induction false} InsideFrame(m: seq<char>, acc: seq<char>, rest: seq<char>)
    requires '>' !in m
    ensures FramesIn(m + ['>'] + rest, acc) == [acc + m] + Frames(rest)
    ensures OpenFrameIn(m + ['>'] + rest, acc) == OpenFrame(rest)
  {
    if m == [] {
      assert (['>'] + rest)[1..] == rest;
      assert acc + m == acc;
    } else {
      assert (m + ['>'] + rest)[1..] == m[1..] + ['>'] + rest;
      InsideFrame(m[1..], acc + [m[0]], rest);
      assert acc + [m[0]] + m[1..] == acc + m;
    }
  }

  /** A stream that starts with `<` is read inside an empty frame. */
  lemma StartOfFrame(t: seq<char>)
    ensures Frames(['<'] + t) == FramesIn(t, [])
    ensures OpenFrame(['<'] + t) == OpenFrameIn(t, [])
  {
    assert (['<'] + t)[1..] == t;
  }

  /** A frame `<m>` whose payload has no `>` carries exactly `m`, and a
      payload of at most 31 characters without NUL reaches the parser intact. */
  lemma FrameRoundTrip(m: seq<char>)
    requires '>' !in m
    ensures Frames(['<'] + m + ['>']) == [m]
    ensures OpenFrame(['<'] + m + ['>']) == None
    ensures |m| < NumChars && '\0' !in m ==> Buffered(m) == m
  {
    var tail := m + ['>'];
    assert tail + [] == tail;
    InsideFrame(m, [], []);
    assert [] + m == m;
    AppendAssoc(['<'], m, ['>']);
    StartOfFrame(tail);
    if |m| < NumChars && '\0' !in m {
      BufferedWithoutNul(m);
    }
  }

  lemma BufferedWithoutNul(m: seq<char>)
    requires |m| < NumChars && '\0' !in m
    ensures Buffered(m) == m
  {
    assert m[..Min(|m|, NumChars - 1)] == m;
    CStringWithoutNul(m);
  }

  lemma {:induction false} CStringWithoutNul(s: seq<char>)
    requires '\0' !in s
    ensures CString(s) == s
  {
    if s != [] {
      assert '\0' !in s[1..];
      CStringWithoutNul(s[1..]);
    }
  }

  /** The delivered message is a prefix of the payload of at most 31 characters. */
  lemma BufferedIsBoundedPrefix(p: seq<char>)
    ensures Buffered(p) <= p && |Buffered(p)| < NumChars
  {
  }

  /** A `<` inside a frame is part of the payload; it does not restart the frame. */
  lemma NestedStartIsPayload()
    ensures Frames("<a<b>") == ["a<b"]
  {
    FrameRoundTrip("a<b");
    assert "<a<b>" == ['<'] + "a<b" + ['>'];
  }
}
