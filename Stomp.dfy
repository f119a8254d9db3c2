/**
 * The hand-written STOMP frame codec of the admin client (chat.js, with an
 * identical copy in posView.js) and the dispatch of MESSAGE frames to the
 * callback registered for their subscription.
 *
 * The codec follows the frame layout of section "STOMP Frames" of the STOMP
 * Protocol Specification 1.2 (command line, header lines, blank line, body,
 * NUL) but does no header escaping: a header line is split at ':' and only
 * the text up to the second ':' is kept.
 */
module Stomp {
  import opened Common

  /** A frame to send: command, headers in insertion order, body. */
  datatype Frame = Frame(command: string, headers: seq<(string, string)>, body: string)

  /**
   * A received frame. A header line without ':' gives an undefined value
   * (`None`); a repeated key keeps its first position and its last value.
   */
  datatype Parsed = Parsed(command: string, headers: seq<(string, Option<string>)>, body: string)

  function HeaderLine(h: (string, string)): string { h.0 + ":" + h.1 }

  /** The header lines of a frame, each followed by a newline. */
  function EncodeHeaders(hs: seq<(string, string)>): string
  {
    if hs == [] then "" else EncodeHeaders(hs[..|hs| - 1]) + HeaderLine(hs[|hs| - 1]) + "\n"
  }

  /** createStompFrame as a value. */
  function Encode(f: Frame): (r: string)
    ensures StartsWith(r, f.command + "\n")
    ensures EndsWith(r, "\n" + f.body + "\0")
  {
    var r := f.command + "\n" + EncodeHeaders(f.headers) + "\n" + f.body + "\0";
    assert r[..|f.command| + 1] == f.command + "\n";
    assert r[|r| - |f.body| - 2..] == "\n" + f.body + "\0";
    r
  }

  predicate DistinctKeys<V>(hs: seq<(string, V)>)
  {
    forall i, j :: 0 <= i < j < |hs| ==> hs[i].0 != hs[j].0
  }

  /** A header the codec carries unchanged: no line break and no ':' in its key or value. */
  predicate PlainHeader(h: (string, string))
  {
    '\n' !in h.0 && ':' !in h.0 && '\n' !in h.1 && ':' !in h.1
  }

  /** What the codec can carry unchanged: no line breaks, plain distinct headers, no NUL in the body. */
  predicate WellFormed(f: Frame)
  {
    '\n' !in f.command
    && (forall i :: 0 <= i < |f.headers| ==> PlainHeader(f.headers[i]))
    && DistinctKeys(f.headers)
    && '\0' !in f.body
  }

  /** `const [key, value] = line.split(':')` */
  function SplitHeader(line: string): (r: (string, Option<string>))
    ensures ':' !in line ==> r == (line, None)
    ensures ':' in line ==>
      var i := CharIndex(line, ':').value;
      r.0 == line[..i] && r.1.Some? && ':' !in r.1.value
      && (r.1.value == line[i + 1..] || StartsWith(line[i + 1..], r.1.value + ":"))
  {
    var parts := SplitChar(line, ':');
    assert ':' in line ==> parts == [line[..CharIndex(line, ':').value]] + SplitChar(line[CharIndex(line, ':').value + 1..], ':');
    (parts[0], if |parts| > 1 then Some(parts[1]) else None)
  }

  /** `headers[key] = value` on an object: replace in place, or append a new key. */
  function Put(hs: seq<(string, Option<string>)>, k: string, v: Option<string>): seq<(string, Option<string>)>
  {
    if hs == [] then [(k, v)]
    else if hs[0].0 == k then [(k, v)] + hs[1..]
    else [hs[0]] + Put(hs[1..], k, v)
  }

  /** A key not yet present is appended after the existing headers. */
  lemma {:induction false} PutAppendsNewKey(hs: seq<(string, Option<string>)>, k: string, v: Option<string>)
    requires forall i :: 0 <= i < |hs| ==> hs[i].0 != k
    ensures Put(hs, k, v) == hs + [(k, v)]
  {
    if hs != [] {
      assert hs[0].0 != k;
      PutAppendsNewKey(hs[1..], k, v);
      assert [hs[0]] + (hs[1..] + [(k, v)]) == hs + [(k, v)];
    }
  }

  /** A key already present is replaced where it first occurs, and nothing else moves. */
  lemma {:induction false} PutReplacesInPlace(hs: seq<(string, Option<string>)>, k: string, v: Option<string>, j: nat)
    requires j < |hs| && hs[j].0 == k && forall i :: 0 <= i < j ==> hs[i].0 != k
    ensures Put(hs, k, v) == hs[j := (k, v)]
  {
    if j > 0 {
      assert hs[0].0 != k;
      PutReplacesInPlace(hs[1..], k, v, j - 1);
      assert [hs[0]] + hs[1..][j - 1 := (k, v)] == hs[j := (k, v)];
    }
  }

  /** After the assignment the key reads the assigned value. */
  lemma {:induction false} PutThenLookup(hs: seq<(string, Option<string>)>, k: string, v: Option<string>)
    ensures Lookup(Put(hs, k, v), k) == Some(v)
  {
    if hs != [] && hs[0].0 != k {
      PutThenLookup(hs[1..], k, v);
      assert Put(hs, k, v)[1..] == Put(hs[1..], k, v);
    }
  }

  /** `headers[key]`: the value of the first entry with that key, if any. */
  function Lookup(hs: seq<(string, Option<string>)>, k: string): (r: Option<Option<string>>)
    ensures r.None? <==> forall i :: 0 <= i < |hs| ==> hs[i].0 != k
  {
    if hs == [] then None
    else if hs[0].0 == k then Some(hs[0].1)
    else Lookup(hs[1..], k)
  }

  /**
   * The header loop of parseStompFrame from line `i`: the headers read and
   * the index where the body starts (1 when there is no blank line).
   */
  function ParseLines(lines: seq<string>, i: nat, hs: seq<(string, Option<string>)>): (r: (seq<(string, Option<string>)>, nat))
    requires 1 <= i
    ensures 1 <= r.1 <= Max(i, |lines|)
    decreases |lines| - i
  {
    if i >= |lines| then (hs, 1)
    else if lines[i] == "" then (hs, i + 1)
    else
      var kv := SplitHeader(lines[i]);
      ParseLines(lines, i + 1, Put(hs, kv.0, kv.1))
  }

  /** parseStompFrame as a value. */
  function Decode(s: string): (r: Parsed)
    ensures '\n' !in r.command
  {
    var lines := SplitChar(s, '\n');
    var (hs, start) := ParseLines(lines, 1, []);
    Parsed(lines[0], hs, RemoveFirstChar(JoinChar(lines[start..], '\n'), '\0'))
  }

  /** The header loop stops at the first empty line; the body is everything after it. */
  lemma {:induction false} ParseStopsAtFirstBlank(lines: seq<string>, i: nat, hs: seq<(string, Option<string>)>, j: nat)
    requires 1 <= i <= j < |lines| && lines[j] == ""
    requires forall k :: i <= k < j ==> lines[k] != ""
    ensures ParseLines(lines, i, hs).1 == j + 1
    decreases j - i
  {
    if i < j {
      assert lines[i] != "";
      var kv := SplitHeader(lines[i]);
      var hs' := Put(hs, kv.0, kv.1);
      assert ParseLines(lines, i, hs) == ParseLines(lines, i + 1, hs');
      ParseStopsAtFirstBlank(lines, i + 1, hs', j);
    } else {
      assert ParseLines(lines, i, hs) == (hs, i + 1);
    }
  }

  /** Without an empty line every line after the command is read as a header and also kept in the body. */
  lemma {:induction false} ParseWithoutBlank(lines: seq<string>, i: nat, hs: seq<(string, Option<string>)>)
    requires 1 <= i
    requires forall k :: i <= k < |lines| ==> lines[k] != ""
    ensures ParseLines(lines, i, hs).1 == 1
    decreases |lines| - i
  {
    if i < |lines| {
      var kv := SplitHeader(lines[i]);
      ParseWithoutBlank(lines, i + 1, Put(hs, kv.0, kv.1));
    }
  }

  /** With no blank line the body is all lines after the command, with only the first NUL removed. */
  lemma DecodeWithoutBlank(s: string)
    requires forall k :: 1 <= k < |SplitChar(s, '\n')| ==> SplitChar(s, '\n')[k] != ""
    ensures Decode(s).body == RemoveFirstChar(JoinChar(SplitChar(s, '\n')[1..], '\n'), '\0')
  {
    ParseWithoutBlank(SplitChar(s, '\n'), 1, []);
  }

  /** Sent headers as received ones: every value defined. */
  function Lift(hs: seq<(string, string)>): seq<(string, Option<string>)>
  {
    seq(|hs|, i requires 0 <= i < |hs| => (hs[i].0, Some(hs[i].1)))
  }

  function HeaderLines(hs: seq<(string, string)>): seq<string>
  {
    seq(|hs|, i requires 0 <= i < |hs| => HeaderLine(hs[i]))
  }

  lemma {:induction false} SplitEncodedHeaders(hs: seq<(string, string)>, x: string)
    requires forall i :: 0 <= i < |hs| ==> '\n' !in HeaderLine(hs[i])
    ensures SplitChar(EncodeHeaders(hs) + x, '\n') == HeaderLines(hs) + SplitChar(x, '\n')
    decreases |hs|
  {
    if hs == [] {
      assert EncodeHeaders(hs) + x == x;
      assert HeaderLines(hs) == [];
    } else {
      var n := |hs| - 1;
      var line := HeaderLine(hs[n]);
      var init := hs[..n];
      var y := line + ['\n'] + x;
      calc {
        SplitChar(EncodeHeaders(hs) + x, '\n');
        { EncodeSnoc(hs, x); }
        SplitChar(EncodeHeaders(init) + y, '\n');
        { assert forall i :: 0 <= i < |init| ==> init[i] == hs[i];
          SplitEncodedHeaders(init, y); }
        HeaderLines(init) + SplitChar(y, '\n');
        { assert '\n' !in line;
          SplitCons(line, '\n', x); }
        HeaderLines(init) + ([line] + SplitChar(x, '\n'));
        { LinesAssoc(HeaderLines(init), [line], SplitChar(x, '\n')); }
        (HeaderLines(init) + [line]) + SplitChar(x, '\n');
        { HeaderLinesSnoc(hs); }
        HeaderLines(hs) + SplitChar(x, '\n');
      }
    }
  }

  lemma LinesAssoc(a: seq<string>, b: seq<string>, c: seq<string>)
    ensures a + (b + c) == (a + b) + c
  {
  }

  lemma EncodeSnoc(hs: seq<(string, string)>, x: string)
    requires hs != []
    ensures EncodeHeaders(hs) + x == EncodeHeaders(hs[..|hs| - 1]) + (HeaderLine(hs[|hs| - 1]) + ['\n'] + x)
  {
    var e, line := EncodeHeaders(hs[..|hs| - 1]), HeaderLine(hs[|hs| - 1]);
    assert EncodeHeaders(hs) == (e + line) + ['\n'];
    AppendAssoc(e + line, ['\n'], x);
    AppendAssoc(e, line, ['\n'] + x);
    AppendAssoc(line, ['\n'], x);
  }

  lemma HeaderLinesSnoc(hs: seq<(string, string)>)
    requires hs != []
    ensures HeaderLines(hs) == HeaderLines(hs[..|hs| - 1]) + [HeaderLine(hs[|hs| - 1])]
  {
    var a, b := HeaderLines(hs), HeaderLines(hs[..|hs| - 1]) + [HeaderLine(hs[|hs| - 1])];
    assert |a| == |b|;
    forall i | 0 <= i < |a| ensures a[i] == b[i] {
    }
  }

  lemma SplitHeaderLine(h: (string, string))
    requires ':' !in h.0 && ':' !in h.1
    ensures SplitHeader(HeaderLine(h)) == (h.0, Some(h.1))
  {
    SplitCons(h.0, ':', h.1);
    assert HeaderLine(h) == h.0 + [':'] + h.1;
    assert SplitChar(h.1, ':') == [h.1];
  }

  /** No key read so far is among the keys still to come. */
  predicate FreshKeys(acc: seq<(string, Option<string>)>, hs: seq<(string, string)>)
  {
    forall k, j :: 0 <= k < |acc| && 0 <= j < |hs| ==> acc[k].0 != hs[j].0
  }

  /** One header line read by the loop appends its header. */
  lemma ParseStep(lines: seq<string>, i: nat, acc: seq<(string, Option<string>)>, h: (string, string))
    requires 1 <= i < |lines| && lines[i] == HeaderLine(h) && PlainHeader(h)
    requires forall k :: 0 <= k < |acc| ==> acc[k].0 != h.0
    ensures ParseLines(lines, i, acc) == ParseLines(lines, i + 1, acc + [(h.0, Some(h.1))])
  {
    assert |HeaderLine(h)| > 0;
    SplitHeaderLine(h);
    PutAppendsNewKey(acc, h.0, Some(h.1));
  }

  lemma {:induction false} ParseHeaderLines(lines: seq<string>, i: nat, acc: seq<(string, Option<string>)>, hs: seq<(string, string)>)
    requires 1 <= i && i + |hs| < |lines| && lines[i + |hs|] == ""
    requires lines[i..i + |hs|] == HeaderLines(hs)
    requires forall k :: 0 <= k < |hs| ==> PlainHeader(hs[k])
    requires DistinctKeys(hs) && FreshKeys(acc, hs)
    ensures ParseLines(lines, i, acc) == (acc + Lift(hs), i + |hs| + 1)
    decreases |hs|
  {
    if hs == [] {
      assert lines[i] == "";
      assert acc + Lift(hs) == acc;
    } else {
      var h, rest := hs[0], hs[1..];
      var acc' := acc + [(h.0, Some(h.1))];
      ParseFirstHeader(lines, i, acc, hs);
      RestStillFits(lines, i, acc, hs);
      ParseHeaderLines(lines, i + 1, acc', rest);
      LiftCons(acc, hs);
    }
  }

  /** The first of the header lines is read as its header. */
  lemma ParseFirstHeader(lines: seq<string>, i: nat, acc: seq<(string, Option<string>)>, hs: seq<(string, string)>)
    requires 1 <= i && i + |hs| < |lines| && hs != []
    requires lines[i..i + |hs|] == HeaderLines(hs)
    requires PlainHeader(hs[0]) && FreshKeys(acc, hs)
    ensures ParseLines(lines, i, acc) == ParseLines(lines, i + 1, acc + [(hs[0].0, Some(hs[0].1))])
  {
    assert lines[i] == lines[i..i + |hs|][0] == HeaderLines(hs)[0];
    ParseStep(lines, i, acc, hs[0]);
  }

  /** After the first header, the remaining lines and headers meet the same conditions. */
  lemma RestStillFits(lines: seq<string>, i: nat, acc: seq<(string, Option<string>)>, hs: seq<(string, string)>)
    requires 1 <= i && i + |hs| < |lines| && hs != []
    requires lines[i..i + |hs|] == HeaderLines(hs)
    requires forall k :: 0 <= k < |hs| ==> PlainHeader(hs[k])
    requires DistinctKeys(hs) && FreshKeys(acc, hs)
    ensures lines[i + 1..i + 1 + |hs[1..]|] == HeaderLines(hs[1..])
    ensures forall k :: 0 <= k < |hs[1..]| ==> PlainHeader(hs[1..][k])
    ensures DistinctKeys(hs[1..]) && FreshKeys(acc + [(hs[0].0, Some(hs[0].1))], hs[1..])
  {
    var rest := hs[1..];
    var acc' := acc + [(hs[0].0, Some(hs[0].1))];
    assert lines[i + 1..i + 1 + |rest|] == lines[i..i + |hs|][1..];
    assert HeaderLines(hs)[1..] == HeaderLines(rest);
    forall k, j | 0 <= k < |acc'| && 0 <= j < |rest| ensures acc'[k].0 != rest[j].0 {
      assert rest[j] == hs[j + 1];
    }
  }

  lemma LiftCons(acc: seq<(string, Option<string>)>, hs: seq<(string, string)>)
    requires hs != []
    ensures acc + [(hs[0].0, Some(hs[0].1))] + Lift(hs[1..]) == acc + Lift(hs)
  {
    assert Lift(hs) == [(hs[0].0, Some(hs[0].1))] + Lift(hs[1..]);
  }

  /** The lines of an encoded frame: command, one per header, the blank line, then the body's lines. */
  lemma EncodedLines(f: Frame)
    requires WellFormed(f)
    ensures SplitChar(Encode(f), '\n') == [f.command] + HeaderLines(f.headers) + [""] + SplitChar(f.body + "\0", '\n')
  {
    var tail := f.body + "\0";
    var x := "" + ['\n'] + tail;
    var encoded := EncodeHeaders(f.headers);
    calc {
      SplitChar(Encode(f), '\n');
    == { assert Encode(f) == f.command + ['\n'] + (encoded + x); }
      SplitChar(f.command + ['\n'] + (encoded + x), '\n');
    == { SplitCons(f.command, '\n', encoded + x); }
      [f.command] + SplitChar(encoded + x, '\n');
    == { forall i | 0 <= i < |f.headers| ensures '\n' !in HeaderLine(f.headers[i]) {
           assert PlainHeader(f.headers[i]);
         }
         SplitEncodedHeaders(f.headers, x); }
      [f.command] + (HeaderLines(f.headers) + SplitChar(x, '\n'));
    == { SplitCons("", '\n', tail); }
      [f.command] + (HeaderLines(f.headers) + ([""] + SplitChar(tail, '\n')));
    }
  }

  /** Removing the first NUL from a body followed by NUL gives the body back. */
  lemma StripTerminator(body: string)
    requires '\0' !in body
    ensures RemoveFirstChar(body + "\0", '\0') == body
  {
    var tail := body + "\0";
    assert CharIndex(tail, '\0') == Some(|body|) by {
      assert tail[|body|] == '\0' && tail[..|body|] == body;
    }
    assert tail[..|body|] + tail[|body| + 1..] == body;
  }

  /** Decoding an encoded frame gives back its command, headers and body. */
  lemma RoundTrip(f: Frame)
    requires WellFormed(f)
    ensures Decode(Encode(f)) == Parsed(f.command, Lift(f.headers), f.body)
  {
    var tail := f.body + "\0";
    EncodedLines(f);
    var lines := SplitChar(Encode(f), '\n');
    var n := |f.headers|;
    assert lines[1 + n] == "";
    assert lines[1..1 + n] == HeaderLines(f.headers);
    assert [] + Lift(f.headers) == Lift(f.headers);
    assert FreshKeys([], f.headers);
    ParseHeaderLines(lines, 1, [], f.headers);
    assert lines[n + 2..] == SplitChar(tail, '\n');
    JoinSplit(tail, '\n');
    StripTerminator(f.body);
  }

  /** A two-header frame (CONNECT and SUBSCRIBE are such), spelled out line by line. */
  lemma EncodeTwoHeaders(command: string, h1: (string, string), h2: (string, string), body: string)
    ensures Encode(Frame(command, [h1, h2], body))
         == command + "\n" + HeaderLine(h1) + "\n" + HeaderLine(h2) + "\n" + "\n" + body + "\0"
  {
    var hs := [h1, h2];
    assert hs[..1] == [h1] && [h1][..0] == [];
    assert EncodeHeaders([h1]) == HeaderLine(h1) + "\n";
    assert EncodeHeaders(hs) == HeaderLine(h1) + "\n" + HeaderLine(h2) + "\n";
  }

  /** createStompFrame */
  method CreateStompFrame(command: string, headers: seq<(string, string)>, body: string) returns (frame: string)
    ensures frame == Encode(Frame(command, headers, body))
  {
    frame := command + "\n";
    var i := 0;
    while i < |headers|
      invariant 0 <= i <= |headers|
      invariant frame == command + "\n" + EncodeHeaders(headers[..i])
    {
      assert headers[..i + 1][..i] == headers[..i];
      frame := frame + headers[i].0 + ":" + headers[i].1 + "\n";
      i := i + 1;
    }
    assert headers[..i] == headers;
    frame := frame + "\n" + body + "\0";
  }

  /** parseStompFrame */
  method ParseStompFrame(frame: string) returns (p: Parsed)
    ensures p == Decode(frame)
  {
    var lines := SplitChar(frame, '\n');
    var command := lines[0];
    var headers: seq<(string, Option<string>)> := [];
    var bodyStart := 1;
    var i := 1;
    while i < |lines|
      invariant 1 <= i <= |lines|
      invariant ParseLines(lines, 1, []) == ParseLines(lines, i, headers)
    {
      if lines[i] == "" {
        bodyStart := i + 1;
        break;
      }
      var kv := SplitHeader(lines[i]);
      headers := Put(headers, kv.0, kv.1);
      i := i + 1;
    }
    p := Parsed(command, headers, RemoveFirstChar(JoinChar(lines[bodyStart..], '\n'), '\0'));
  }

  // ---------------------------------------------------------------- dispatch

  /** What `ws.onmessage` does with a frame. */
  datatype Delivery<H> = NoCallback | Deliver(handler: H, body: string) | BodyError(handler: H)

  /** `frame.headers['subscription']` used as a property name: undefined becomes "undefined". */
  function SubscriptionKey(p: Parsed): string
  {
    match Lookup(p.headers, "subscription")
    case Some(Some(v)) => v
    case _ => "undefined"
  }

  /**
   * A MESSAGE frame goes to the callback registered for its subscription,
   * when its body parses as JSON; a parse failure goes to the error callback.
   */
  function Dispatch<H>(subscriptions: map<string, H>, p: Parsed, bodyParses: bool): (d: Delivery<H>)
    ensures p.command != "MESSAGE" ==> d == NoCallback
    ensures SubscriptionKey(p) !in subscriptions ==> d == NoCallback
    ensures d.Deliver? ==> bodyParses && d.body == p.body && subscriptions[SubscriptionKey(p)] == d.handler
    ensures p.command == "MESSAGE" && SubscriptionKey(p) in subscriptions ==>
      d != NoCallback && d.handler == subscriptions[SubscriptionKey(p)] && (d.Deliver? <==> bodyParses)
  {
    if p.command != "MESSAGE" then NoCallback
    else
      var key := SubscriptionKey(p);
      if key !in subscriptions then NoCallback
      else if bodyParses then Deliver(subscriptions[key], p.body)
      else BodyError(subscriptions[key])
  }

  lemma LookupLift(hs: seq<(string, string)>, k: int)
    requires DistinctKeys(hs) && 0 <= k < |hs|
    ensures Lookup(Lift(hs), hs[k].0) == Some(Some(hs[k].1))
  {
    if k > 0 {
      assert Lift(hs)[1..] == Lift(hs[1..]);
      LookupLift(hs[1..], k - 1);
    }
  }

  /**
   * End to end: a well-formed MESSAGE frame whose subscription header names a
   * registered id reaches that id's callback with the body sent.
   */
  lemma DeliveredToSubscriber<H>(subscriptions: map<string, H>, f: Frame, k: int)
    requires WellFormed(f) && f.command == "MESSAGE"
    requires 0 <= k < |f.headers| && f.headers[k].0 == "subscription" && f.headers[k].1 in subscriptions
    ensures Dispatch(subscriptions, Decode(Encode(f)), true) == Deliver(subscriptions[f.headers[k].1], f.body)
  {
    RoundTrip(f);
    LookupLift(f.headers, k);
  }
}
