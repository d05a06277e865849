/** Following a file of newline-ended events as it grows (internal/harness/jsonl.go). */
module Tail {
  import opened Basics

  newtype Byte = b: int | 0 <= b < 256

  type Bytes = seq<Byte>

  const NEWLINE: Byte := 10

  /** The ASCII white space. */
  predicate IsSpace(b: Byte) {
    b == 32 || 9 <= b <= 13
  }

  function TrimLeft(s: Bytes): Bytes {
    if s != [] && IsSpace(s[0]) then TrimLeft(s[1..]) else s
  }

  function TrimRight(s: Bytes): Bytes {
    if s != [] && IsSpace(s[|s| - 1]) then TrimRight(s[..|s| - 1]) else s
  }

  /** bytes.TrimSpace */
  function TrimSpace(s: Bytes): Bytes {
    TrimRight(TrimLeft(s))
  }

  /** Tab, newline, vertical tab, form feed, carriage return and space. */
  const BLANKS: set<Byte> := {9, 10, 11, 12, 13, 32}

  ghost predicate Blank(s: Bytes) {
    forall b :: b in s ==> b in BLANKS
  }

  lemma {:induction false} TrimLeftMeaning(s: Bytes) returns (a: Bytes)
    ensures s == a + TrimLeft(s) && Blank(a)
    ensures TrimLeft(s) != [] ==> TrimLeft(s)[0] !in BLANKS
  {
    a := [];
    if s != [] && IsSpace(s[0]) {
      a := TrimLeftMeaning(s[1..]);
      a := [s[0]] + a;
    }
  }

  lemma {:induction false} TrimRightMeaning(s: Bytes) returns (b: Bytes)
    ensures s == TrimRight(s) + b && Blank(b) && TrimRight(s) <= s
    ensures TrimRight(s) != [] ==> TrimRight(s)[|TrimRight(s)| - 1] !in BLANKS
  {
    b := [];
    if s != [] && IsSpace(s[|s| - 1]) {
      b := TrimRightMeaning(s[..|s| - 1]);
      b := b + [s[|s| - 1]];
    }
  }

  /** Only white space is cut away, and none is left at either end. */
  lemma TrimSpaceMeaning(s: Bytes) returns (a: Bytes, b: Bytes)
    ensures s == a + TrimSpace(s) + b && Blank(a) && Blank(b)
    ensures var t := TrimSpace(s); t != [] ==> t[0] !in BLANKS && t[|t| - 1] !in BLANKS
  {
    a := TrimLeftMeaning(s);
    b := TrimRightMeaning(TrimLeft(s));
  }

  /** The position of the first newline. */
  function IndexNewline(s: Bytes): (i: Option<nat>)
    ensures i.Some? ==> i.value < |s| && s[i.value] == NEWLINE && NEWLINE !in s[..i.value]
    ensures i.None? ==> NEWLINE !in s
  {
    if s == [] then None
    else if s[0] == NEWLINE then Some(0)
    else
      var i := IndexNewline(s[1..]);
      if i.None? then assert s == [s[0]] + s[1..]; None
      else assert s[..i.value + 1] == [s[0]] + s[1..][..i.value]; Some(i.value + 1)
  }

  /** The complete lines, without their newlines. */
  function Lines(data: Bytes): seq<Bytes>
    decreases |data|
  {
    var i := IndexNewline(data);
    if i.None? then [] else [data[..i.value]] + Lines(data[i.value + 1..])
  }

  /** What follows the last newline. */
  function Rest(data: Bytes): Bytes
    decreases |data|
  {
    var i := IndexNewline(data);
    if i.None? then data else Rest(data[i.value + 1..])
  }

  /** The event a line holds, if any; decode is json.Unmarshal. */
  function EventOf<E>(line: Bytes, decode: Bytes -> Option<E>): Option<E> {
    if TrimSpace(line) == [] then None else decode(TrimSpace(line))
  }

  function EventsOf<E>(lines: seq<Bytes>, decode: Bytes -> Option<E>): seq<E> {
    if lines == [] then []
    else
      var e := EventOf(lines[0], decode);
      (if e.Some? then [e.value] else []) + EventsOf(lines[1..], decode)
  }

  function Flatten(chunks: seq<Bytes>): Bytes {
    if chunks == [] then [] else Flatten(chunks[..|chunks| - 1]) + chunks[|chunks| - 1]
  }

  function Take<E>(s: seq<E>, n: nat): seq<E> {
    if |s| <= n then s else s[..n]
  }

  // ---- Lines and the carry rebuild the data ----

  function Joined(lines: seq<Bytes>): Bytes {
    if lines == [] then [] else lines[0] + [NEWLINE] + Joined(lines[1..])
  }

  ghost predicate Plain(line: Bytes) {
    NEWLINE !in line
  }

  lemma FirstLine(data: Bytes)
    requires IndexNewline(data).Some?
    ensures var i := IndexNewline(data).value;
      && Plain(data[..i]) && data == data[..i] + [NEWLINE] + data[i + 1..]
      && Lines(data) == [data[..i]] + Lines(data[i + 1..]) && Rest(data) == Rest(data[i + 1..])
  {
  }

  lemma Regroup(line: Bytes, joined: Bytes, rest: Bytes)
    ensures line + [NEWLINE] + joined + rest == line + [NEWLINE] + (joined + rest)
  {
  }

  lemma JoinedCons(line: Bytes, lines: seq<Bytes>)
    ensures Joined([line] + lines) == line + [NEWLINE] + Joined(lines)
  {
  }

  /** Nothing is lost: ended lines and the rest, none of them holding a newline, make up the data. */
  lemma {:induction false} LinesRebuild(data: Bytes)
    ensures Joined(Lines(data)) + Rest(data) == data
    ensures Plain(Rest(data)) && forall l :: l in Lines(data) ==> Plain(l)
    decreases |data|
  {
    var i := IndexNewline(data);
    if i.Some? {
      var line, more := data[..i.value], data[i.value + 1..];
      LinesRebuild(more);
      FirstLine(data);
      JoinedCons(line, Lines(more));
      Regroup(line, Joined(Lines(more)), Rest(more));
    }
  }

  lemma {:induction false} FirstNewline(line: Bytes, more: Bytes)
    requires Plain(line)
    ensures IndexNewline(line + [NEWLINE] + more) == Some(|line|)
  {
    var s := line + [NEWLINE] + more;
    if line != [] {
      assert line[0] in line && s[1..] == line[1..] + [NEWLINE] + more;
      FirstNewline(line[1..], more);
    }
  }

  /** ... and that is the only way to split them. */
  lemma {:induction false} LinesUnique(data: Bytes, lines: seq<Bytes>, rest: Bytes)
    requires data == Joined(lines) + rest && Plain(rest) && forall l :: l in lines ==> Plain(l)
    ensures Lines(data) == lines && Rest(data) == rest
    decreases |lines|
  {
    if lines != [] {
      var more := Joined(lines[1..]) + rest;
      assert data == lines[0] + [NEWLINE] + more;
      FirstNewline(lines[0], more);
      assert data[..|lines[0]|] == lines[0] && data[|lines[0]| + 1..] == more;
      LinesUnique(more, lines[1..], rest);
    }
  }

  lemma {:induction false} JoinedConcat(a: seq<Bytes>, b: seq<Bytes>)
    ensures Joined(a + b) == Joined(a) + Joined(b)
  {
    if a == [] {
      assert a + b == b;
    } else {
      JoinedConcat(a[1..], b);
      assert (a + b)[1..] == a[1..] + b;
    }
  }

  /** Splitting more data only needs the carry of what came before. */
  lemma LinesIncremental(seen: Bytes, more: Bytes)
    ensures Lines(seen + more) == Lines(seen) + Lines(Rest(seen) + more)
    ensures Rest(seen + more) == Rest(Rest(seen) + more)
  {
    var done, carry := Lines(seen), Rest(seen) + more;
    LinesRebuild(seen);
    LinesRebuild(carry);
    SplitOn(done, Rest(seen), Lines(carry), Rest(carry), more);
    LinesUnique(seen + more, done + Lines(carry), Rest(carry));
  }

  lemma SplitOn(a: seq<Bytes>, r: Bytes, b: seq<Bytes>, rest: Bytes, more: Bytes)
    requires r + more == Joined(b) + rest
    ensures Joined(a) + r + more == Joined(a + b) + rest
  {
    JoinedConcat(a, b);
    assert Joined(a) + r + more == Joined(a) + (r + more);
    assert Joined(a) + (Joined(b) + rest) == Joined(a) + Joined(b) + rest;
  }

  lemma Regrouped<E>(a: seq<E>, b: seq<E>, c: seq<E>)
    ensures a + b + c == a + (b + c)
  {
  }

  lemma {:induction false} EventsConcat<E>(a: seq<Bytes>, b: seq<Bytes>, decode: Bytes -> Option<E>)
    ensures EventsOf(a + b, decode) == EventsOf(a, decode) + EventsOf(b, decode)
  {
    if a == [] {
      assert a + b == b;
    } else {
      EventsConcat(a[1..], b, decode);
      assert (a + b)[0] == a[0] && (a + b)[1..] == a[1..] + b;
      var e := EventOf(a[0], decode);
      Regrouped(if e.Some? then [e.value] else [], EventsOf(a[1..], decode), EventsOf(b, decode));
    }
  }

  /** A blank line and one that does not decode give no event; any other gives its own, without the blanks around it. */
  ghost function OwnEvents<E>(line: Bytes, decode: Bytes -> Option<E>): seq<E> {
    if Blank(line) || decode(TrimSpace(line)).None? then [] else [decode(TrimSpace(line)).value]
  }

  /** A line counts for itself alone, between the lines before and after it. */
  lemma EachLineAlone<E>(a: seq<Bytes>, line: Bytes, b: seq<Bytes>, decode: Bytes -> Option<E>)
    ensures EventsOf(a + [line] + b, decode) == EventsOf(a, decode) + OwnEvents(line, decode) + EventsOf(b, decode)
  {
    EventsConcat(a + [line], b, decode);
    EventsConcat(a, [line], decode);
    OneLine(line, decode);
  }

  lemma OneLine<E>(line: Bytes, decode: Bytes -> Option<E>)
    ensures EventsOf([line], decode) == OwnEvents(line, decode)
  {
    BlankTrimsAway(line);
    assert [line][1..] == [];
  }

  lemma BlankTrimsAway(line: Bytes)
    ensures Blank(line) <==> TrimSpace(line) == []
  {
    var before, after := TrimSpaceMeaning(line);
    if TrimSpace(line) != [] { assert TrimSpace(line)[0] in line; }
  }

  lemma {:induction false} FlattenConcat(a: seq<Bytes>, b: seq<Bytes>)
    ensures Flatten(a + b) == Flatten(a) + Flatten(b)
    decreases |b|
  {
    if b == [] {
      assert a + b == a;
    } else {
      var init, last := b[..|b| - 1], b[|b| - 1];
      FlattenConcat(a, init);
      assert (a + b)[..|a + b| - 1] == a + init && (a + b)[|a + b| - 1] == last;
      Regrouped(Flatten(a), Flatten(init), last);
    }
  }

  // ---- The carry loop ----

  /** What there was to send is what was sent and what the carry still holds. */
  ghost predicate Pending<E>(all: seq<E>, sent: seq<E>, carry: Bytes, decode: Bytes -> Option<E>) {
    all == sent + EventsOf(Lines(carry), decode)
  }

  lemma EventsCons<E>(line: Bytes, lines: seq<Bytes>, decode: Bytes -> Option<E>)
    ensures EventOf(line, decode).None? ==> EventsOf([line] + lines, decode) == EventsOf(lines, decode)
    ensures EventOf(line, decode).Some? ==>
              EventsOf([line] + lines, decode) == [EventOf(line, decode).value] + EventsOf(lines, decode)
  {
    assert ([line] + lines)[1..] == lines;
  }

  lemma NoLine<E>(all: seq<E>, sent: seq<E>, carry: Bytes, decode: Bytes -> Option<E>, room: nat)
    requires Pending(all, sent, carry, decode) && IndexNewline(carry).None? && |sent| <= room
    ensures sent == Take(all, room) && |all| <= room && Rest(carry) == carry
  {
  }

  lemma SkipLine<E>(all: seq<E>, sent: seq<E>, carry: Bytes, decode: Bytes -> Option<E>)
    requires Pending(all, sent, carry, decode) && IndexNewline(carry).Some?
    requires EventOf(carry[..IndexNewline(carry).value], decode).None?
    ensures Pending(all, sent, carry[IndexNewline(carry).value + 1..], decode)
  {
    FirstLine(carry);
    var i := IndexNewline(carry).value;
    EventsCons(carry[..i], Lines(carry[i + 1..]), decode);
  }

  lemma SendLine<E>(all: seq<E>, sent: seq<E>, carry: Bytes, decode: Bytes -> Option<E>)
    requires Pending(all, sent, carry, decode) && IndexNewline(carry).Some?
    requires EventOf(carry[..IndexNewline(carry).value], decode).Some?
    ensures |sent| < |all| && all[..|sent|] == sent
    ensures Pending(all, sent + [EventOf(carry[..IndexNewline(carry).value], decode).value],
                    carry[IndexNewline(carry).value + 1..], decode)
  {
    FirstLine(carry);
    var i := IndexNewline(carry).value;
    EventsCons(carry[..i], Lines(carry[i + 1..]), decode);
    Regrouped(sent, [EventOf(carry[..i], decode).value], EventsOf(Lines(carry[i + 1..]), decode));
  }

  /** Sends the events of the complete lines in the carry until the receiver has gone. */
  method Drain<E>(carry0: Bytes, decode: Bytes -> Option<E>, room: nat)
    returns (sent: seq<E>, carry: Bytes, gone: bool)
    ensures sent == Take(EventsOf(Lines(carry0), decode), room)
    ensures gone <==> |EventsOf(Lines(carry0), decode)| > room
    ensures !gone ==> carry == Rest(carry0)
  {
    sent, carry, gone := [], carry0, false;
    ghost var all := EventsOf(Lines(carry0), decode);
    while true
      invariant Pending(all, sent, carry, decode) && |sent| <= room
      invariant Rest(carry) == Rest(carry0)
      decreases |carry|
    {
      var i := IndexNewline(carry);
      if i.None? {
        NoLine(all, sent, carry, decode, room);
        return;
      }
      ghost var before := carry;
      FirstLine(carry);
      var line := TrimSpace(carry[..i.value]);
      carry := carry[i.value + 1..];
      if line == [] {
        SkipLine(all, sent, before, decode);
        continue;
      }
      var e := decode(line);
      if e.None? {
        SkipLine(all, sent, before, decode);
        continue;
      }
      SendLine(all, sent, before, decode);
      if |sent| == room {
        gone := true;
        return;
      }
      sent := sent + [e.value];
    }
  }

  /** One more chunk on top of what has been seen. */
  lemma ChunkStep<E>(chunks: seq<Bytes>, c: nat, decode: Bytes -> Option<E>)
    requires c < |chunks|
    ensures var seen, all := Flatten(chunks[..c]), Flatten(chunks[..c + 1]);
      var carry := Rest(seen) + chunks[c];
      && EventsOf(Lines(all), decode) == EventsOf(Lines(seen), decode) + EventsOf(Lines(carry), decode)
      && Rest(all) == Rest(carry)
  {
    var seen := Flatten(chunks[..c]);
    assert chunks[..c + 1][..c] == chunks[..c];
    LinesIncremental(seen, chunks[c]);
    EventsConcat(Lines(seen), Lines(Rest(seen) + chunks[c]), decode);
  }

  lemma MoreBytesMoreEvents<E>(all: Bytes, more: Bytes, decode: Bytes -> Option<E>)
    ensures EventsOf(Lines(all), decode) <= EventsOf(Lines(all + more), decode)
  {
    LinesIncremental(all, more);
    EventsConcat(Lines(all), Lines(Rest(all) + more), decode);
  }

  /** What was sent early on stays the beginning of what there is to send. */
  lemma EventsGrow<E>(seen: seq<Bytes>, more: seq<Bytes>, decode: Bytes -> Option<E>)
    ensures EventsOf(Lines(Flatten(seen)), decode) <= EventsOf(Lines(Flatten(seen + more)), decode)
  {
    FlattenConcat(seen, more);
    MoreBytesMoreEvents(Flatten(seen), Flatten(more), decode);
  }

  lemma TakeOfGrown<E>(sent: seq<E>, fresh': seq<E>, all: seq<E>, room: nat)
    requires |sent| <= room && sent + fresh' <= all && |fresh'| > room - |sent|
    ensures sent + Take(fresh', room - |sent|) == Take(all, room) && |all| > room
  {
  }

  lemma ReceiverGone<E>(chunks: seq<Bytes>, c: nat, decode: Bytes -> Option<E>, sent: seq<E>, found: seq<E>, room: nat)
    requires c <= |chunks| && EventsOf(Lines(Flatten(chunks[..c])), decode) == sent + found
    requires |sent| <= room && |found| > room - |sent|
    ensures sent + Take(found, room - |sent|) == Take(EventsOf(Lines(Flatten(chunks)), decode), room)
    ensures |EventsOf(Lines(Flatten(chunks)), decode)| > room
  {
    EventsGrow(chunks[..c], chunks[c..], decode);
    assert chunks[..c] + chunks[c..] == chunks;
    TakeOfGrown(sent, found, EventsOf(Lines(Flatten(chunks)), decode), room);
  }

  /**
   Reads the appended bytes in chunks; the receiver takes `room` events before it goes.  The
   events sent are those of the complete lines of the bytes put together, up to that many,
   and a reader still there holds the unfinished last line as its carry.
   */
  method TailChunks<E>(chunks: seq<Bytes>, decode: Bytes -> Option<E>, room: nat)
    returns (sent: seq<E>, carry: Bytes, gone: bool)
    ensures sent == Take(EventsOf(Lines(Flatten(chunks)), decode), room)
    ensures gone <==> |EventsOf(Lines(Flatten(chunks)), decode)| > room
    ensures !gone ==> carry == Rest(Flatten(chunks))
  {
    sent, carry, gone := [], [], false;
    for c := 0 to |chunks|
      invariant sent == EventsOf(Lines(Flatten(chunks[..c])), decode) && |sent| <= room
      invariant carry == Rest(Flatten(chunks[..c])) && !gone
    {
      carry := carry + chunks[c];
      ghost var found := EventsOf(Lines(carry), decode);
      ChunkStep(chunks, c, decode);
      var more;
      more, carry, gone := Drain(carry, decode, room - |sent|);
      if gone {
        ReceiverGone(chunks, c + 1, decode, sent, found, room);
      }
      sent := sent + more;
      if gone {
        return;
      }
    }
    assert chunks[..|chunks|] == chunks;
  }

  // ---- What the writer appended is what the reader yields ----

  ghost predicate Decodes<E>(e: E, encode: E -> Bytes, decode: Bytes -> Option<E>) {
    Plain(encode(e)) && EventOf(encode(e), decode) == Some(e)
  }

  function Written<E>(events: seq<E>, encode: E -> Bytes): Bytes {
    Joined(Map(events, encode))
  }

  lemma {:induction false} EventsReturn<E>(events: seq<E>, encode: E -> Bytes, decode: Bytes -> Option<E>)
    requires forall e :: e in events ==> Decodes(e, encode, decode)
    ensures EventsOf(Map(events, encode), decode) == events
  {
    if events != [] {
      EventsReturn(events[1..], encode, decode);
      assert Map(events, encode)[1..] == Map(events[1..], encode);
      assert Decodes(events[0], encode, decode);
    }
  }

  /**
   Events appended one per line come back unchanged and in order, with anything written of a
   next line kept as the carry, however the bytes are cut into reads.
   */
  lemma WrittenEventsReturn<E>(events: seq<E>, partial: Bytes, chunks: seq<Bytes>, encode: E -> Bytes,
                               decode: Bytes -> Option<E>)
    requires forall e :: e in events ==> Decodes(e, encode, decode)
    requires Plain(partial) && Flatten(chunks) == Written(events, encode) + partial
    ensures EventsOf(Lines(Flatten(chunks)), decode) == events && Rest(Flatten(chunks)) == partial
  {
    forall l | l in Map(events, encode) ensures Plain(l) {
      var i :| 0 <= i < |events| && l == encode(events[i]);
      assert Decodes(events[i], encode, decode);
    }
    LinesUnique(Flatten(chunks), Map(events, encode), partial);
    EventsReturn(events, encode, decode);
  }
}
