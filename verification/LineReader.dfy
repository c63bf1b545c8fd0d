/** The two line readers as they run, on arrays and a descriptor that hands out its
    bytes in chunks (readline/main.cpp, readline/producer.cpp). */
module Descriptors {
  import opened Numerals
  import opened LineSpec

  /** Bytes that arrive together, or a pause longer than the timeout. */
  datatype Event = Chunk(bytes: seq<char>) | Pause

  function Flatten(events: seq<Event>): seq<Tick> {
    if events == [] then []
    else (match events[0] case Chunk(b) => Ticks(b) case Pause => [Timeout]) + Flatten(events[1..])
  }

  predicate NoEmptyChunk(events: seq<Event>) {
    forall i :: 0 <= i < |events| ==> events[i] != Chunk([])
  }

  /** What one read() of at most `n` bytes brings of a chunk. */
  function ReadSize(chunk: seq<char>, n: nat): nat { if |chunk| < n then |chunk| else n }

  /** And what it leaves. */
  function AfterRead(events: seq<Event>, n: nat): seq<Event>
    requires events != [] && events[0].Chunk?
  {
    var chunk := events[0].bytes;
    if |chunk| <= n then events[1..] else [Chunk(chunk[n..])] + events[1..]
  }

  /** An open descriptor, its future fixed; past the last event it is at end of file. */
  class Descriptor {
    var events: seq<Event>

    ghost predicate Valid()
      reads this
    {
      NoEmptyChunk(events)
    }

    ghost function Stream(): seq<Tick>
      reads this
    {
      Flatten(events)
    }

    /** select(): false when the time runs out before anything can be read. */
    method Select() returns (ready: bool)
      requires Valid()
      modifies this
      ensures Valid()
      ensures ready <==> old(Stream()) == [] || old(Stream())[0].Byte?
      ensures Stream() == if ready then old(Stream()) else old(Stream())[1..]
      ensures ready ==> events == old(events) && (events == [] || events[0].Chunk?)
    {
      if events != [] && events[0].Pause? {
        events := events[1..];
        return false;
      }
      return true;
    }

    /** read() into the buffer at `offset`: the next chunk, or as much of it as is asked for. */
    method Read(buffer: array<char>, offset: nat, n: nat) returns (k: nat)
      requires Valid() && n >= 1 && offset + n <= buffer.Length
      requires events == [] || events[0].Chunk?
      modifies this, buffer
      ensures Valid() && k <= n
      ensures k == 0 <==> old(Stream()) == []
      ensures if old(events) == [] then k == 0 && events == []
              else k == ReadSize(old(events)[0].bytes, n) && events == AfterRead(old(events), n)
      ensures 0 < k < n ==> events == old(events)[1..]
      ensures old(Stream()) == Ticks(buffer[offset..offset + k]) + Stream()
      ensures buffer[..offset] == old(buffer[..offset]) && buffer[offset + k..] == old(buffer[offset + k..])
    {
      if events == [] { return 0; }
      var chunk := events[0].bytes;
      k := if |chunk| < n then |chunk| else n;
      Copy(buffer, offset, chunk[..k]);
      ghost var before := events;
      if k == |chunk| {
        events := events[1..];
        assert chunk[..k] == chunk;
      } else {
        events := [Chunk(chunk[k..])] + events[1..];
        assert events[1..] == before[1..];
        assert chunk == chunk[..k] + chunk[k..];
        TicksConcat(chunk[..k], chunk[k..]);
      }
    }
  }

  /** memcpy */
  method Copy(a: array<char>, offset: nat, s: seq<char>)
    requires offset + |s| <= a.Length
    modifies a
    ensures a[..] == old(a[..offset]) + s + old(a[offset + |s|..])
  {
    var i := 0;
    while i < |s|
      invariant 0 <= i <= |s|
      invariant forall k :: 0 <= k < i ==> a[offset + k] == s[k]
      invariant forall k :: 0 <= k < a.Length && (k < offset || offset + i <= k) ==> a[k] == old(a[k])
    {
      a[offset + i] := s[i];
      i := i + 1;
    }
    assert a[offset..offset + |s|] == s;
  }

  function Zeros(n: nat): (s: seq<char>)
    ensures |s| == n && forall i :: 0 <= i < n ==> s[i] == '\0'
  {
    seq(n, (_: nat) => '\0')
  }

  lemma {:induction false} CStringBeforeZeros(s: seq<char>, n: nat)
    ensures CString(s + Zeros(n)) == CString(s)
    decreases |s|
  {
    if s == [] {
      assert n > 0 ==> (s + Zeros(n))[0] == '\0';
    } else {
      assert (s + Zeros(n))[1..] == s[1..] + Zeros(n);
      CStringBeforeZeros(s[1..], n);
    }
  }

  /** memset(a, 0, n) */
  method Clear(a: array<char>, n: nat)
    requires n <= a.Length
    modifies a
    ensures a[..] == Zeros(n) + old(a[n..])
  {
    Copy(a, 0, Zeros(n));
  }
}

module ByteReader {
  import opened LineSpec
  import opened Descriptors

  /** read() of one byte to `data[pos]`. */
  method TakeByte(d: Descriptor, data: array<char>, pos: nat) returns (k: nat)
    requires d.Valid() && pos < data.Length && (d.events == [] || d.events[0].Chunk?)
    modifies d, data
    ensures d.Valid() && k <= 1
    ensures k == 0 ==> old(d.Stream()) == [] && d.Stream() == [] && data[..] == old(data[..])
    ensures k == 1 ==> old(d.Stream()) == [Byte(data[pos])] + d.Stream()
                       && data[..] == old(data[..])[pos := data[pos]]
  {
    k := d.Read(data, pos, 1);
    if k == 1 {
      assert data[pos..pos + 1] == [data[pos]];
      Pieces(old(data[..]), data[..], pos);
    } else {
      assert data[pos..pos] == [];
      assert data[..] == data[..pos] + data[pos..];
      assert old(data[..]) == old(data[..pos]) + old(data[pos..]);
    }
  }

  lemma Pieces(a: seq<char>, b: seq<char>, pos: nat)
    requires pos < |a| == |b| && a[..pos] == b[..pos] && a[pos + 1..] == b[pos + 1..]
    ensures b == a[pos := b[pos]]
  {
    forall i | 0 <= i < |a| ensures b[i] == a[pos := b[pos]][i] {
      if i < pos {
        assert a[..pos][i] == b[..pos][i];
      } else if i > pos {
        assert a[pos + 1..][i - pos - 1] == b[pos + 1..][i - pos - 1];
      }
    }
  }

  lemma PutAt(have: seq<char>, tail: seq<char>, c: char)
    requires tail != []
    ensures (have + tail)[|have| := c] == have + [c] + tail[1..]
  {
  }

  /** One turn of the loop: a byte was there and there was room for it. */
  lemma ByteLineStep(t: seq<Tick>, have: seq<char>, limit: nat, c: char, rest: seq<Tick>)
    requires t == [Byte(c)] + rest && |have| < limit
    ensures ByteLine(t, have, limit)
            == if c == '\n' then Whole(|have| + 1, OK, have + [c], rest) else ByteLine(rest, have + [c], limit)
  {
    assert t[1..] == rest;
  }

  /** The turns that end the loop. */
  lemma ByteLineStop(t: seq<Tick>, have: seq<char>, limit: nat)
    ensures t != [] && t[0].Timeout? ==> ByteLine(t, have, limit) == Whole(-1, ETIME, have, t[1..])
    ensures t == [] || (t[0].Byte? && |have| >= limit) ==> ByteLine(t, have, limit) == Whole(|have|, OK, have, t)
  {
  }

  /** One byte at a time, into `data`. */
  method ReadLineSelect(d: Descriptor, data: array<char>, t_len: nat) returns (ret: int, errno: Errno)
    requires d.Valid() && t_len <= data.Length
    modifies d, data
    ensures d.Valid()
    ensures var r := ByteLine(old(d.Stream()), [], t_len);
            && ret == r.ret && errno == r.errno && d.Stream() == r.rest
            && |r.line| <= t_len && data[..] == r.line + old(data[..])[|r.line|..]
  {
    hide ByteLine;
    var data_move := 0;
    ghost var have: seq<char> := [];
    while true
      invariant d.Valid() && data_move == |have| <= t_len
      invariant data[..] == have + old(data[..])[|have|..]
      invariant ByteLine(old(d.Stream()), [], t_len) == ByteLine(d.Stream(), have, t_len)
      decreases |d.Stream()|
    {
      ByteLineStop(d.Stream(), have, t_len);
      var ready := d.Select();
      if !ready { return -1, ETIME; }
      if data_move >= t_len { return data_move, OK; }
      ghost var before := d.Stream();
      var k := TakeByte(d, data, data_move);
      if k == 0 { return data_move, OK; }
      ByteLineStep(before, have, t_len, data[data_move], d.Stream());
      PutAt(have, old(data[..])[|have|..], data[data_move]);
      have := have + [data[data_move]];
      assert old(data[..])[data_move..][1..] == old(data[..])[data_move + 1..];
      data_move := data_move + 1;
      if data[data_move - 1] == '\n' { return data_move, OK; }
    }
  }
}

module BufferedReader {
  import opened LineSpec
  import opened Descriptors

  const L_BUFFER_SIZE: nat := 128

  /** The inner buffer kept for a descriptor between calls. */
  class FdBufferPair {
    const fd: int
    const buffer: array<char>
    var offset: int
    var read_bytes: nat

    ghost predicate Valid()
      reads this
    {
      && buffer.Length == L_BUFFER_SIZE
      && -1 <= offset <= read_bytes <= L_BUFFER_SIZE
    }

    /** Bytes read from the descriptor and not yet delivered. */
    ghost function Pending(): seq<char>
      requires Valid()
      reads this, buffer
    {
      if offset < 0 then [] else buffer[offset..read_bytes]
    }

    constructor (fd: int)
      ensures Valid() && this.fd == fd && offset == -1 && read_bytes == 0 && fresh(buffer)
      ensures buffer[..] == Zeros(L_BUFFER_SIZE)
    {
      this.fd := fd;
      buffer := new char[L_BUFFER_SIZE](_ => '\0');
      offset := -1;
      read_bytes := 0;
    }

    method Reset()
      requires Valid()
      modifies this, buffer
      ensures Valid() && offset == 0 && read_bytes == 0 && buffer[..] == Zeros(L_BUFFER_SIZE)
    {
      offset := 0;
      read_bytes := 0;
      Clear(buffer, buffer.Length);
    }

    /** read() of a whole buffer. */
    method Fill(d: Descriptor) returns (k: nat)
      requires Valid() && d.Valid() && (d.events == [] || d.events[0].Chunk?)
      modifies this, buffer, d
      ensures Valid() && d.Valid() && offset == 0 && read_bytes == k
      ensures k == 0 <==> old(d.Stream()) == []
      ensures if old(d.events) == [] then k == 0 && d.events == []
              else k == ReadSize(old(d.events)[0].bytes, L_BUFFER_SIZE) && d.events == AfterRead(old(d.events), L_BUFFER_SIZE)
      ensures old(d.Stream()) == Ticks(Pending()) + d.Stream()
    {
      k := d.Read(buffer, 0, L_BUFFER_SIZE);
      read_bytes := k;
      offset := 0;
    }
  }

  /** How much of a line that fills the buffer has been saved by then: `p` bytes are
      saved, and every read() but the one that brings the last byte saves its bytes. */
  function SavedFrom(p: nat, events: seq<Event>, count: nat): (saved: nat)
    requires p < count
    ensures p <= saved < count
    decreases count - p
  {
    if events == [] || events[0].Pause? then p
    else
      var k := ReadSize(events[0].bytes, L_BUFFER_SIZE);
      if k == 0 || p + k >= count then p else SavedFrom(p + k, AfterRead(events, L_BUFFER_SIZE), count)
  }

  function Saved(pending: nat, events: seq<Event>, count: nat): (saved: nat)
    ensures saved < count || saved == 0
  {
    if pending >= count then 0 else SavedFrom(pending, events, count)
  }

  /** The same in the middle of a line: `line` bytes of it are taken, `copied` saved. */
  ghost predicate Saving(saved: nat, count: nat, line: nat, pending: nat, copied: nat, events: seq<Event>) {
    if line + pending >= count then saved == copied else saved == SavedFrom(line + pending, events, count)
  }

  lemma SavingRefill(saved: nat, count: nat, line: nat, copied: nat, events: seq<Event>)
    requires line < count && Saving(saved, count, line, 0, copied, events)
    requires events != [] && events[0].Chunk? && events[0].bytes != []
    ensures Saving(saved, count, line, ReadSize(events[0].bytes, L_BUFFER_SIZE), line, AfterRead(events, L_BUFFER_SIZE))
  {
  }

  /** A byte more of the line, a byte less pending. */
  lemma SavingNext(saved: nat, count: nat, line: nat, pending: nat, copied: nat, events: seq<Event>)
    requires pending >= 1 && Saving(saved, count, line, pending, copied, events)
    ensures Saving(saved, count, line + 1, pending - 1, copied, events)
    ensures line + 1 >= count ==> copied == saved
  {
  }

  /** What one call returns. Only a call with `count` 0 on a descriptor not read
      before can differ from FastLine, by a timeout. */
  function CallResult(t: seq<Tick>, count: nat, unread: bool, saved: nat): Result
    requires saved <= count
  {
    if unread && t != [] && t[0].Timeout? then Whole(-1, ETIME, [], t[1..]) else FastLine(t, count, saved)
  }

  lemma CallIsFastLine(t: seq<Tick>, count: nat, unread: bool, saved: nat)
    requires saved < count
    ensures CallResult(t, count, unread, saved) == FastLine(t, count, saved)
  {
  }

  /** Where the terminating NUL of a line of length n is put: after the line in the
      caller's buffer, moved up by the offset at which the line started in the inner
      buffer unless that was refilled on the way. */
  function TerminatorAt(offset: int, pending: nat, n: nat): int {
    if n <= pending then offset + n else n
  }

  /** The loop of readline_tout: `line` is what it has taken off the stream, the
      first `copied` bytes of it are in the caller's buffer, the others in the inner
      buffer from `starting` on. */
  ghost predicate Reading(p: FdBufferPair, d: Descriptor, out: array<char>, t: seq<Tick>, count: nat,
                          tail: seq<char>, line: seq<char>, copied: nat, starting: nat)
    reads p, p.buffer, d, out
  {
    && p.Valid() && d.Valid()
    && t == Ticks(line) + (Ticks(p.Pending()) + d.Stream())
    && '\n' !in line && |line| <= count
    && 0 <= starting <= p.offset && copied <= |line|
    && p.buffer[starting..p.offset] == line[copied..]
    && Written(out[..], line[..copied], count, tail)
  }

  /** The caller's memory: `done`, zeros up to `count`, and what lies behind it. */
  ghost predicate Written(memory: seq<char>, done: seq<char>, count: nat, tail: seq<char>) {
    |done| <= count && memory == done + Zeros(count - |done|) + tail
  }

  /** How many bytes of its line a call takes. */
  ghost function Goal(t: seq<Tick>, count: nat): nat { if |Line(t)| >= count then count else |Line(t)| }

  /** While bytes are pending the line is not complete. */
  lemma GoalAhead(t: seq<Tick>, count: nat, line: seq<char>, pending: seq<char>, stream: seq<Tick>)
    requires t == Ticks(line) + (Ticks(pending) + stream) && '\n' !in line && |line| < count && pending != []
    ensures |line| < Goal(t, count)
  {
    var rest := Ticks(pending) + stream;
    LineAfter(line, rest);
    assert rest[0] == Byte(pending[0]);
    assert Line(rest) != [];
    assert |line + Line(rest)| == |line| + |Line(rest)|;
    hide Line;
  }

  /** With its newline it is. */
  lemma GoalReached(t: seq<Tick>, count: nat, line: seq<char>, rest: seq<Tick>)
    requires t == Ticks(line + ['\n']) + rest && '\n' !in line && |line| < count
    ensures Goal(t, count) == |line| + 1 && Ended(Line(t))
  {
    LineTo(line, rest);
    hide Line;
  }

  lemma GoalMissed(t: seq<Tick>, count: nat, line: seq<char>, rest: seq<Tick>)
    requires '\n' !in line && |line| < count
    requires t == Ticks(line) + ([Timeout] + rest) || t == Ticks(line)
    ensures Goal(t, count) < count && !Ended(Line(t))
  {
    assert Ticks(line) + [] == Ticks(line);
    LineTo(line, [Timeout] + rest);
    LineTo(line, []);
    hide Line;
  }

  datatype Refill = Refilled | TimedOut | AtEnd

  /** The inner buffer is used up: save its part of the line and read again. */
  method ReadMore(p: FdBufferPair, d: Descriptor, out: array<char>, ghost t: seq<Tick>, count: nat,
                  ghost tail: seq<char>, ghost line: seq<char>, copied: nat, starting: nat, ghost saved: nat, ghost goal: nat)
    returns (more: Refill, copied': nat)
    requires p.buffer != out && goal == Goal(t, count)
    requires Reading(p, d, out, t, count, tail, line, copied, starting) && p.offset == p.read_bytes
    requires |line| < count && (|line| < goal ==> Saving(saved, goal, |line|, 0, copied, d.events))
    modifies p, p.buffer, d, out
    ensures more == Refilled ==> Reading(p, d, out, t, count, tail, line, copied', 0) && p.Pending() != []
    ensures more == Refilled ==> |line| < goal && Saving(saved, goal, |line|, |p.Pending()|, copied', d.events)
    ensures p.Valid() && d.Valid()
    ensures more != Refilled ==> p.offset == 0 && p.Pending() == [] && Written(out[..], line, count, tail)
    ensures more == TimedOut ==> t == Ticks(line) + ([Timeout] + d.Stream())
    ensures more == AtEnd ==> t == Ticks(line) && d.Stream() == []
    ensures copied' == |line|
  {
    hide Ticks, Written, Saving, Flatten, NoEmptyChunk, Zeros, Goal;
    ghost var stream := d.Stream();
    assert t == Ticks(line) + stream by { NoTicks(stream); }
    copied' := SavePart(p, d, out, t, count, tail, line, copied, starting);
    hide Reading;
    var ready := d.Select();
    if !ready {
      assert stream == [Timeout] + d.Stream();
      return TimedOut, copied';
    }
    ghost var events := d.events;
    var k := p.Fill(d);
    if k == 0 {
      assert Ticks(line) + [] == Ticks(line);
      return AtEnd, copied';
    }
    GoalAhead(t, count, line, p.Pending(), d.Stream());
    SavingRefill(saved, goal, |line|, copied, events);
    AllSaved(p, d, out, t, count, tail, line);
    return Refilled, copied';
  }

  /** What the inner buffer holds of the line goes to the caller, and it is cleared. */
  method SavePart(p: FdBufferPair, d: Descriptor, out: array<char>, ghost t: seq<Tick>, count: nat,
                  ghost tail: seq<char>, ghost line: seq<char>, copied: nat, starting: nat)
    returns (copied': nat)
    requires p.buffer != out
    requires Reading(p, d, out, t, count, tail, line, copied, starting) && p.offset == p.read_bytes
    modifies p, p.buffer, out
    ensures p.Valid() && p.offset == p.read_bytes == 0 && copied' == |line|
    ensures Written(out[..], line, count, tail)
  {
    hide Ticks, Written, Flatten, NoEmptyChunk, Zeros;
    CallersPart(out[..], line[..copied], count, tail);
    assert p.buffer[starting..p.offset] == line[copied..] && line[..|line|] == line && line[|line|..] == [];
    Copy(out, copied, p.buffer[starting..p.offset]);
    Extend(old(out[..]), line, copied, count, tail, out[..]);
    copied' := copied + (p.offset - starting);
    p.Reset();
  }

  /** With all of the line saved the loop goes on at the start of the inner buffer. */
  lemma AllSaved(p: FdBufferPair, d: Descriptor, out: array<char>, t: seq<Tick>, count: nat, tail: seq<char>, line: seq<char>)
    requires p.Valid() && d.Valid() && p.offset == 0 && '\n' !in line && |line| <= count
    requires t == Ticks(line) + (Ticks(p.Pending()) + d.Stream()) && Written(out[..], line, count, tail)
    ensures Reading(p, d, out, t, count, tail, line, |line|, 0)
  {
    hide Ticks, Written, Flatten, NoEmptyChunk;
    assert line[..|line|] == line && line[|line|..] == [] && p.buffer[0..0] == [];
  }

  /** Copying the rest of the line into the caller's buffer. */
  lemma Extend(before: seq<char>, line: seq<char>, copied: nat, count: nat, tail: seq<char>, after: seq<char>)
    requires copied <= |line| <= count && Written(before, line[..copied], count, tail)
    requires after == before[..copied] + line[copied..] + before[copied + |line[copied..]|..]
    ensures Written(after, line, count, tail)
  {
    assert before[copied + |line[copied..]|..] == Zeros(count - |line|) + tail;
    assert line[..copied] + line[copied..] == line;
  }

  // ---- the ways out of the loop, as FastLine has them ----

  lemma NewlineOut(t: seq<Tick>, count: nat, saved: nat, line: seq<char>, rest: seq<Tick>)
    requires '\n' !in line && t == Ticks(line + ['\n']) + rest && saved <= count
    ensures |line| + 1 < count ==> FastLine(t, count, saved) == Whole(|line| + 1, OK, line + ['\n'], rest)
    ensures |line| + 1 == count ==>
              FastLine(t, count, saved) == Result(0 - count, EAGAIN, (line + ['\n'])[..saved], line + ['\n'], rest)
  {
    LineTo(line, rest);
    hide Line;
    assert t[|line| + 1..] == rest;
    assert (line + ['\n'])[..|line| + 1] == line + ['\n'];
  }

  lemma OverlongOut(t: seq<Tick>, count: nat, saved: nat, line: seq<char>, rest: seq<Tick>)
    requires '\n' !in line && t == Ticks(line) + rest && |line| == count && saved <= count
    ensures FastLine(t, count, saved) == Result(0 - count, EAGAIN, line[..saved], line, rest)
  {
    LineAfter(line, rest);
    hide Line;
    var s := line + Line(rest);
    assert t[count..] == rest && s[..count] == line && s[..saved] == line[..saved];
  }

  lemma TimeoutOut(t: seq<Tick>, count: nat, saved: nat, line: seq<char>, rest: seq<Tick>)
    requires '\n' !in line && t == Ticks(line) + ([Timeout] + rest) && |line| < count && saved <= count
    ensures FastLine(t, count, saved) == Whole(-1, ETIME, line, rest)
  {
    LineTo(line, [Timeout] + rest);
    hide Line;
    assert t[|line| + 1..] == rest;
  }

  lemma EndOut(t: seq<Tick>, count: nat, saved: nat, line: seq<char>)
    requires '\n' !in line && t == Ticks(line) && |line| < count && saved <= count
    ensures FastLine(t, count, saved) == Whole(0 - |line|, if |line| > 0 then EAGAIN else OK, line, [])
  {
    assert t == Ticks(line) + [];
    LineTo(line, []);
  }

  /** One byte moves from the inner buffer to the line. */
  method NextByte(p: FdBufferPair, d: Descriptor, out: array<char>, ghost t: seq<Tick>, count: nat,
                  ghost tail: seq<char>, ghost line: seq<char>, copied: nat, starting: nat)
    returns (c: char)
    requires p.buffer != out
    requires Reading(p, d, out, t, count, tail, line, copied, starting) && p.Pending() != [] && |line| < count
    modifies p`offset
    ensures p.Valid() && p.offset == old(p.offset) + 1
    ensures t == Ticks(line + [c]) + (Ticks(p.Pending()) + d.Stream())
    ensures p.buffer[starting..p.offset] == (line + [c])[copied..]
    ensures p.Pending() == old(p.Pending())[1..] && c == old(p.Pending())[0]
    ensures c != '\n' ==> Reading(p, d, out, t, count, tail, line + [c], copied, starting)
    ensures 0 <= starting < p.offset && copied <= |line| && |line| + 1 == copied + p.offset - starting
    ensures Written(out[..], (line + [c])[..copied], count, tail) && d.Valid() && '\n' !in line
  {
    hide Ticks, Written, NoEmptyChunk;
    c := p.buffer[p.offset];
    MoveByte(t, line, copied, p.Pending(), d.Stream());
    assert p.buffer[starting..p.offset + 1] == p.buffer[starting..p.offset] + [c];
    assert p.Pending()[1..] == p.buffer[p.offset + 1..p.read_bytes];
    p.offset := p.offset + 1;
  }

  lemma MoveByte(t: seq<Tick>, line: seq<char>, copied: nat, pending: seq<char>, stream: seq<Tick>)
    requires pending != [] && copied <= |line| && t == Ticks(line) + (Ticks(pending) + stream)
    ensures var c := pending[0];
            && t == Ticks(line + [c]) + (Ticks(pending[1..]) + stream)
            && (line + [c])[copied..] == line[copied..] + [c] && (line + [c])[..copied] == line[..copied]
  {
    hide Ticks;
    var c := pending[0];
    SplitOne(pending);
    TicksConcat(line, [c]);
    TicksConcat([c], pending[1..]);
    Regrouped(Ticks(line), Ticks([c]), Ticks(pending[1..]), stream);
    SnocSlices(line, c, copied);
  }

  lemma SplitOne(s: seq<char>)
    requires s != []
    ensures s == [s[0]] + s[1..]
  {
  }

  lemma Regrouped(a: seq<Tick>, b: seq<Tick>, r: seq<Tick>, s: seq<Tick>)
    ensures a + ((b + r) + s) == (a + b) + (r + s)
  {
  }

  lemma SnocSlices(line: seq<char>, c: char, copied: nat)
    requires copied <= |line|
    ensures (line + [c])[copied..] == line[copied..] + [c] && (line + [c])[..copied] == line[..copied]
  {
  }

  /** How the loop ended: with a line, with a full buffer, by a timeout or at the end. */
  datatype Exit = Newline | Full | Late | Over

  /** Where a line that ends now would get its terminator. */
  ghost predicate Placed(refilled: bool, starting: nat, offset0: int, pending0: nat, line: nat, pending: nat) {
    if refilled then starting == 0 && line >= pending0
    else starting == offset0 && line + pending == pending0
  }

  /** The state in which the loop ends. */
  ghost predicate LoopLeft(p: FdBufferPair, d: Descriptor, out: array<char>, t: seq<Tick>, count: nat,
                       tail: seq<char>, line: seq<char>, copied: nat, starting: nat, exit: Exit)
    reads p, p.buffer, d, out
  {
    && p.Valid() && d.Valid() && |line| <= count && copied <= |line|
    && match exit
       case Newline =>
         && line != [] && '\n' !in line[..|line| - 1] && line[|line| - 1] == '\n'
         && t == Ticks(line) + (Ticks(p.Pending()) + d.Stream())
         && 0 <= starting <= p.offset && |line| == copied + p.offset - starting
         && p.buffer[starting..p.offset] == line[copied..]
         && Written(out[..], line[..copied], count, tail)
       case Full =>
         && |line| == count && '\n' !in line && t == Ticks(line) + (Ticks(p.Pending()) + d.Stream())
         && 0 <= starting <= p.offset && |line| == copied + p.offset - starting
         && Written(out[..], line[..copied], count, tail)
       case Late =>
         && |line| < count && '\n' !in line && t == Ticks(line) + ([Timeout] + d.Stream())
         && p.Pending() == [] && Written(out[..], line, count, tail)
       case Over =>
         && |line| < count && '\n' !in line && t == Ticks(line) && d.Stream() == []
         && p.Pending() == [] && Written(out[..], line, count, tail)
  }

  /** One turn of the loop. */
  method OneTurn(p: FdBufferPair, d: Descriptor, out: array<char>, ghost t: seq<Tick>, count: nat,
                 ghost tail: seq<char>, ghost refilled: bool, ghost offset0: int, ghost pending0: nat,
                 ghost line: seq<char>, copied: nat, starting: nat, ghost saved: nat, ghost goal: nat)
    returns (done: bool, exit: Exit, more: nat, copied': nat, starting': nat, ghost refilled': bool, ghost line': seq<char>)
    requires p.buffer != out && p.Valid() && p.offset >= 0 && |line| < count && goal == Goal(t, count)
    requires Reading(p, d, out, t, count, tail, line, copied, starting)
    requires Placed(refilled, starting, offset0, pending0, |line|, |p.Pending()|)
    requires |line| < goal ==> Saving(saved, goal, |line|, |p.Pending()|, copied, d.events)
    modifies p, p.buffer, d, out
    ensures p.Valid() && |line'| == |line| + more
    ensures done ==> LoopLeft(p, d, out, t, count, tail, line', copied', starting', exit)
    ensures done && exit == Newline ==>
              && |line'| == goal && copied' == saved && |line'| + starting' == TerminatorAt(offset0, pending0, |line'|)
              && p.offset == |line'| - copied' + starting'
    ensures done && exit == Newline ==> Ended(Line(t))
    ensures done && exit != Newline ==> p.offset == 0 && goal < count && !Ended(Line(t))
    ensures done ==> exit != Full
    ensures !done && |line'| == goal ==> copied' == saved && |line'| + starting' == TerminatorAt(offset0, pending0, |line'|)
    ensures !done ==> more == 1 && p.offset >= 0 && Reading(p, d, out, t, count, tail, line', copied', starting')
                      && Placed(refilled', starting', offset0, pending0, |line'|, |p.Pending()|)
                      && (|line'| < goal ==> Saving(saved, goal, |line'|, |p.Pending()|, copied', d.events))
  {
    hide Written, Ticks, Saving, Flatten, NoEmptyChunk, Zeros, Reading, LoopLeft, TerminatorAt, Goal, Line, Ended;
    copied', starting', refilled', line' := copied, starting, refilled, line;
    if p.offset >= p.read_bytes {
      var got;
      UsedUp(p, d, out, t, count, tail, line, copied, starting);
      got, copied' := ReadMore(p, d, out, t, count, tail, line, copied, starting, saved, goal);
      if got != Refilled {
        exit := if got == TimedOut then Late else Over;
        LeftEarly(p, d, out, t, count, tail, line, copied', starting', exit);
        GoalMissed(t, count, line, d.Stream());
        return true, exit, 0, copied', starting', refilled', line';
      }
      starting', refilled' := 0, true;
    }
    AheadNow(p, d, out, t, count, tail, line, copied', starting', goal);
    SavingNext(saved, goal, |line|, |p.Pending()|, copied', d.events);
    var c := NextByte(p, d, out, t, count, tail, line, copied', starting');
    line' := line + [c];
    if c == '\n' {
      LeftWithLine(p, d, out, t, count, tail, line, copied', starting');
      GoalReached(t, count, line, Ticks(p.Pending()) + d.Stream());
    }
    PlacedNext(refilled', starting', offset0, pending0, |line|, |p.Pending()| + 1);
    return c == '\n', Newline, 1, copied', starting', refilled', line';
  }

  /** The inner buffer holds what has been taken off it, and no more. */
  lemma UsedUp(p: FdBufferPair, d: Descriptor, out: array<char>, t: seq<Tick>, count: nat,
               tail: seq<char>, line: seq<char>, copied: nat, starting: nat)
    requires p.Valid() && p.offset >= p.read_bytes >= 0 && p.offset >= 0
    requires Reading(p, d, out, t, count, tail, line, copied, starting)
    ensures p.offset == p.read_bytes && p.Pending() == []
    ensures copied <= |line| && '\n' !in line
  {
  }

  lemma AheadNow(p: FdBufferPair, d: Descriptor, out: array<char>, t: seq<Tick>, count: nat,
                 tail: seq<char>, line: seq<char>, copied: nat, starting: nat, goal: nat)
    requires Reading(p, d, out, t, count, tail, line, copied, starting) && p.Pending() != []
    requires |line| < count && goal == Goal(t, count)
    ensures |line| < goal
  {
    hide Ticks, Written, NoEmptyChunk, Flatten, Goal;
    GoalAhead(t, count, line, p.Pending(), d.Stream());
  }

  lemma LeftEarly(p: FdBufferPair, d: Descriptor, out: array<char>, t: seq<Tick>, count: nat,
                  tail: seq<char>, line: seq<char>, copied: nat, starting: nat, exit: Exit)
    requires p.Valid() && d.Valid() && |line| < count && copied == |line| && '\n' !in line
    requires p.Pending() == [] && Written(out[..], line, count, tail)
    requires exit == Late || exit == Over
    requires exit == Late ==> t == Ticks(line) + ([Timeout] + d.Stream())
    requires exit == Over ==> t == Ticks(line) && d.Stream() == []
    ensures LoopLeft(p, d, out, t, count, tail, line, copied, starting, exit)
  {
    hide Ticks, Written, NoEmptyChunk, Flatten;
  }

  lemma LeftWithLine(p: FdBufferPair, d: Descriptor, out: array<char>, t: seq<Tick>, count: nat,
                     tail: seq<char>, line: seq<char>, copied: nat, starting: nat)
    requires p.Valid() && d.Valid() && |line| < count && '\n' !in line
    requires t == Ticks(line + ['\n']) + (Ticks(p.Pending()) + d.Stream())
    requires 0 <= starting < p.offset && |line| + 1 == copied + p.offset - starting && copied <= |line|
    requires p.buffer[starting..p.offset] == (line + ['\n'])[copied..]
    requires Written(out[..], (line + ['\n'])[..copied], count, tail)
    ensures LoopLeft(p, d, out, t, count, tail, line + ['\n'], copied, starting, Newline)
  {
    hide Ticks, Written, NoEmptyChunk, Flatten;
    assert (line + ['\n'])[..|line + ['\n']| - 1] == line;
  }

  lemma PlacedNext(refilled: bool, starting: nat, offset0: int, pending0: nat, line: nat, pending: nat)
    requires Placed(refilled, starting, offset0, pending0, line, pending) && pending >= 1
    ensures Placed(refilled, starting, offset0, pending0, line + 1, pending - 1)
    ensures line + 1 + starting == TerminatorAt(offset0, pending0, line + 1)
  {
  }

  /** The loop of readline_tout. */
  method TakeLine(p: FdBufferPair, d: Descriptor, out: array<char>, ghost t: seq<Tick>, count: nat,
                  ghost tail: seq<char>, ghost fresh0: bool, ghost offset0: int, ghost pending0: nat,
                  ghost saved: nat, ghost goal: nat)
    returns (exit: Exit, line_len: nat, copied: nat, starting: nat, ghost line: seq<char>)
    requires p.buffer != out && p.Valid() && p.offset >= 0 && goal == Goal(t, count)
    requires Reading(p, d, out, t, count, tail, [], 0, p.offset)
    requires Placed(fresh0, p.offset, offset0, pending0, 0, |p.Pending()|)
    requires 0 < goal ==> Saving(saved, goal, 0, |p.Pending()|, 0, d.events)
    requires goal == 0 ==> saved == 0
    modifies p, p.buffer, d, out
    ensures p.Valid() && d.Valid() && |line| == line_len
    ensures LoopLeft(p, d, out, t, count, tail, line, copied, starting, exit)
    ensures line_len == count ==> copied == saved && goal == count
    ensures exit == Newline ==> line_len + starting == TerminatorAt(offset0, pending0, line_len)
    ensures exit == Newline || exit == Full ==> line_len == goal
    ensures exit == Newline || (exit == Full && count > 0) ==>
              p.offset == TerminatorAt(offset0, pending0, line_len) - saved
    ensures exit == Newline || exit == Full ==> goal == count || Ended(Line(t))
    ensures exit == Late || exit == Over ==> p.offset == 0 && goal < count && !Ended(Line(t))
    ensures count == 0 ==> p.offset == old(p.offset)
  {
    hide Ticks, Written, Placed, SavedFrom, Goal, TerminatorAt, Line, Ended;
    starting, line_len, copied, line := p.offset, 0, 0, [];
    ghost var refilled := fresh0;
    while line_len < count
      invariant p.Valid() && p.offset >= 0 && |line| == line_len
      invariant Reading(p, d, out, t, count, tail, line, copied, starting)
      invariant Placed(refilled, starting, offset0, pending0, line_len, |p.Pending()|)
      invariant line_len < goal ==> Saving(saved, goal, line_len, |p.Pending()|, copied, d.events)
      invariant 0 < line_len == goal ==> copied == saved && line_len + starting == TerminatorAt(offset0, pending0, line_len)
      invariant line_len == 0 ==> copied == 0
      invariant count == 0 ==> p.offset == old(p.offset)
      decreases count - line_len
    {
      var done, more;
      done, exit, more, copied, starting, refilled, line :=
        OneTurn(p, d, out, t, count, tail, refilled, offset0, pending0, line, copied, starting, saved, goal);
      line_len := line_len + more;
      if done { return; }
    }
    exit := Full;
    FullGoal(p, d, out, t, count, tail, line, copied, starting);
  }

  /** A line that fills the buffer. */
  lemma FullGoal(p: FdBufferPair, d: Descriptor, out: array<char>, t: seq<Tick>, count: nat,
                 tail: seq<char>, line: seq<char>, copied: nat, starting: nat)
    requires Reading(p, d, out, t, count, tail, line, copied, starting) && |line| == count
    ensures Goal(t, count) == count && |line| == copied + p.offset - starting
  {
    LineAfter(line, Ticks(p.Pending()) + d.Stream());
    assert |p.buffer[starting..p.offset]| == |line[copied..]|;
    hide Line;
  }

  /** The caller's memory after a terminator at index `at`: it can fall behind `count`. */
  function Terminated(tail: seq<char>, count: nat, at: int): seq<char> {
    if count <= at < count + |tail| then tail[at - count := '\0'] else tail
  }

  lemma TerminatorLands(memory: seq<char>, line: seq<char>, count: nat, tail: seq<char>, at: nat)
    requires Written(memory, line, count, tail) && |line| <= at < |memory|
    ensures Written(memory[at := '\0'], line, count, Terminated(tail, count, at))
  {
    var z := Zeros(count - |line|);
    if at < count {
      assert z[at - |line|] == '\0';
      assert memory[at := '\0'] == memory;
    } else {
      assert memory[at := '\0'] == line + z + tail[at - count := '\0'];
    }
  }

  lemma CallersPart(memory: seq<char>, line: seq<char>, count: nat, tail: seq<char>)
    requires Written(memory, line, count, tail)
    ensures |memory| == count + |tail| && memory[..count] == line + Zeros(count - |line|) && memory[count..] == tail
  {
  }

  /** The line goes to the caller, with a NUL behind it. */
  method Deliver(p: FdBufferPair, d: Descriptor, out: array<char>, ghost t: seq<Tick>, count: nat,
                 ghost tail: seq<char>, ghost line: seq<char>, copied: nat, starting: nat)
    requires p.buffer != out && LoopLeft(p, d, out, t, count, tail, line, copied, starting, Newline)
    requires copied + p.offset < out.Length
    modifies out
    ensures Written(out[..], line, count, Terminated(tail, count, |line| + starting))
  {
    hide LoopLeft, Ticks, Written, NoEmptyChunk, Flatten, Zeros, Terminated;
    LineInParts(p, d, out, t, count, tail, line, copied, starting);
    Copy(out, copied, p.buffer[starting..p.offset]);
    Extend(old(out[..]), line, copied, count, tail, out[..]);
    TerminatorLands(out[..], line, count, tail, copied + p.offset);
    ghost var before := out[..];
    out[copied + p.offset] := '\0';
    assert out[..] == before[copied + p.offset := '\0'];
  }

  lemma LineInParts(p: FdBufferPair, d: Descriptor, out: array<char>, t: seq<Tick>, count: nat,
                    tail: seq<char>, line: seq<char>, copied: nat, starting: nat)
    requires LoopLeft(p, d, out, t, count, tail, line, copied, starting, Newline)
    ensures p.Valid() && 0 <= starting <= p.offset && |line| + starting == copied + p.offset
    ensures copied <= |line| <= count && p.buffer[starting..p.offset] == line[copied..]
    ensures Written(out[..], line[..copied], count, tail) && out.Length == count + |tail|
  {
    hide Ticks, NoEmptyChunk, Flatten;
  }

  /** What the ways out of the loop return. */
  lemma ExitResult(p: FdBufferPair, d: Descriptor, out: array<char>, t: seq<Tick>, count: nat,
                   tail: seq<char>, line: seq<char>, copied: nat, starting: nat, exit: Exit, saved: nat)
    requires LoopLeft(p, d, out, t, count, tail, line, copied, starting, exit)
    requires saved <= count
    ensures var r, n := FastLine(t, count, saved), |line|;
            && r.line == (if n == count then line[..saved] else line) && r.taken == line && r.rest == Ticks(p.Pending()) + d.Stream()
            && (n == count ==> r.ret == -n && r.errno == EAGAIN)
            && (n < count ==> match exit
                              case Newline => r.ret == n && r.errno == OK
                              case Late => r.ret == -1 && r.errno == ETIME
                              case Over => r.ret == -n && r.errno == (if n > 0 then EAGAIN else OK)
                              case Full => false)
  {
    hide FastLine, Written;
    var rest := Ticks(p.Pending()) + d.Stream();
    match exit
    case Newline =>
      var body := line[..|line| - 1];
      assert line == body + ['\n'];
      NewlineOut(t, count, saved, body, rest);
    case Full => OverlongOut(t, count, saved, line, rest);
    case Late => TimeoutOut(t, count, saved, line, d.Stream());
    case Over => EndOut(t, count, saved, line);
  }

  /** One call. `out` is the memory from the caller's buffer on: `count` bytes are the
      buffer, and more than the inner buffer's size of it exists. */
  method ReadlineTout(p: FdBufferPair, d: Descriptor, out: array<char>, count: nat)
    returns (ret: int, errno: Errno)
    requires p.Valid() && d.Valid() && p.buffer != out
    requires count <= out.Length && L_BUFFER_SIZE < out.Length
    modifies p, p.buffer, d, out
    ensures p.Valid() && d.Valid()
    ensures var saved := Saved(|old(p.Pending())|, old(d.events), count);
            var r := CallResult(Ticks(old(p.Pending())) + old(d.Stream()), count, old(p.offset) == -1, saved);
            && ret == r.ret && errno == r.errno
            && Ticks(p.Pending()) + d.Stream() == r.rest
            && |r.line| <= count && out[..count] == r.line + Zeros(count - |r.line|)
    ensures out[count..] == if ret > 0
                            then Terminated(old(out[count..]), count, TerminatorAt(old(p.offset), |old(p.Pending())|, ret))
                            else old(out[count..])
    ensures p.offset == OffsetAfter(old(p.offset), |old(p.Pending())|, old(d.events),
                                    Ticks(old(p.Pending())) + old(d.Stream()), count)
  {
    hide FastLine, Written, Ticks, Terminated, TerminatorAt, Saved, Goal, Saving, OffsetAfter, Flatten, NoEmptyChunk;
    ghost var t := Ticks(p.Pending()) + d.Stream();
    ghost var tail := out[count..];
    ghost var offset0, pending0, events := p.offset, |p.Pending()|, d.events;
    NoGoal(Goal(t, count), pending0, events);
    Clear(out, count);
    Cleared(out[..], count, tail);
    var ready := FirstFill(p, d, t, Goal(t, count));
    if !ready {
      CallersPart(out[..], [], count, tail);
      OffsetUnread(pending0, events, t, count);
      return -1, ETIME;
    }
    ret, errno := AfterFill(p, d, out, t, count, tail, offset0, pending0, events);
  }

  /** The rest of the call, once there is something in the inner buffer or nothing to come. */
  method AfterFill(p: FdBufferPair, d: Descriptor, out: array<char>, ghost t: seq<Tick>, count: nat,
                   ghost tail: seq<char>, ghost offset0: int, ghost pending0: nat, ghost events: seq<Event>)
    returns (ret: int, errno: Errno)
    requires p.Valid() && d.Valid() && p.buffer != out && p.offset >= 0
    requires L_BUFFER_SIZE < out.Length && |tail| == out.Length - count && count <= out.Length
    requires Written(out[..], [], count, tail)
    requires t == Ticks(p.Pending()) + d.Stream()
    requires -1 <= offset0 && offset0 + pending0 <= L_BUFFER_SIZE
    requires if offset0 == -1 then p.offset == 0 && pending0 == 0 else p.offset == offset0 && |p.Pending()| == pending0
    requires !(offset0 == -1 && t != [] && t[0].Timeout?)
    requires Saving(Saved(pending0, events, Goal(t, count)), Goal(t, count), 0, |p.Pending()|, 0, d.events)
    requires Goal(t, count) == 0 ==> Saved(pending0, events, Goal(t, count)) == 0
    modifies p, p.buffer, d, out
    ensures p.Valid() && d.Valid()
    ensures var r := FastLine(t, count, Saved(pending0, events, count));
            && ret == r.ret && errno == r.errno && Ticks(p.Pending()) + d.Stream() == r.rest
            && |r.line| <= count && out[..count] == r.line + Zeros(count - |r.line|)
    ensures out[count..] == if ret > 0 then Terminated(tail, count, TerminatorAt(offset0, pending0, ret)) else tail
    ensures p.offset == OffsetAfter(offset0, pending0, events, t, count)
  {
    hide FastLine, Written, Ticks, Terminated, TerminatorAt, Placed, Saved, Goal, Saving, OffsetAfter, Line, Flatten, NoEmptyChunk,
         Reading, LoopLeft;
    ghost var goal, start := Goal(t, count), p.offset;
    ghost var goalSaved := Saved(pending0, events, goal);
    Started(offset0 == -1, p.offset, offset0, pending0, |p.Pending()|);
    NothingTaken(p, d, out, t, count, tail);
    var exit, line_len, copied, starting;
    ghost var line;
    exit, line_len, copied, starting, line := TakeLine(p, d, out, t, count, tail, offset0 == -1, offset0, pending0, goalSaved, goal);
    OffsetIs(offset0, pending0, events, t, count, exit, start, p.offset);
    ret, errno := Finish(p, d, out, t, count, tail, offset0, pending0, Saved(pending0, events, count),
                         exit, line_len, copied, starting, line);
  }

  /** Where the inner buffer stands after a call: behind the line taken from it, as far as
      that came with the last read(), and at its start when a pause or the end of the file
      was met in between. */
  ghost function OffsetAfter(offset: int, pending: nat, events: seq<Event>, t: seq<Tick>, count: nat): int {
    var n := Goal(t, count);
    if offset == -1 && t != [] && t[0].Timeout? then -1
    else if count == 0 then (if offset == -1 then 0 else offset)
    else if n == count || Ended(Line(t)) then TerminatorAt(offset, pending, n) - Saved(pending, events, n)
    else 0
  }

  lemma OffsetUnread(pending: nat, events: seq<Event>, t: seq<Tick>, count: nat)
    requires t != [] && t[0].Timeout?
    ensures OffsetAfter(-1, pending, events, t, count) == -1
  {
    hide Goal, Line, Saved;
  }

  lemma OffsetIs(offset: int, pending: nat, events: seq<Event>, t: seq<Tick>, count: nat, exit: Exit, start: int, after: int)
    requires !(offset == -1 && t != [] && t[0].Timeout?)
    requires start == if offset == -1 then 0 else offset
    requires count == 0 ==> after == start
    requires (exit == Newline || exit == Full) && count > 0 ==>
               && after == TerminatorAt(offset, pending, Goal(t, count)) - Saved(pending, events, Goal(t, count))
               && (Goal(t, count) == count || Ended(Line(t)))
    requires exit == Late || exit == Over ==> after == 0 && Goal(t, count) < count && !Ended(Line(t))
    ensures after == OffsetAfter(offset, pending, events, t, count)
  {
    hide Goal, Line, Saved, TerminatorAt;
  }

  /** Before the loop. */
  lemma NothingTaken(p: FdBufferPair, d: Descriptor, out: array<char>, t: seq<Tick>, count: nat, tail: seq<char>)
    requires p.Valid() && d.Valid() && p.offset >= 0 && Written(out[..], [], count, tail)
    requires t == Ticks(p.Pending()) + d.Stream()
    ensures Reading(p, d, out, t, count, tail, [], 0, p.offset)
  {
    hide Written, Flatten, NoEmptyChunk;
    NoTicks(t);
    var nothing: seq<char> := [];
    assert p.buffer[p.offset..p.offset] == nothing && nothing[..0] == nothing && nothing[0..] == nothing;
  }

  lemma NoGoal(goal: nat, pending: nat, events: seq<Event>)
    ensures goal == 0 ==> Saved(pending, events, goal) == 0
  {
  }

  /** A descriptor that was not read before is read; false when that takes too long. */
  method FirstFill(p: FdBufferPair, d: Descriptor, ghost t: seq<Tick>, ghost goal: nat) returns (ready: bool)
    requires p.Valid() && d.Valid() && t == Ticks(p.Pending()) + d.Stream()
    modifies p, p.buffer, d
    ensures p.Valid() && d.Valid()
    ensures old(p.offset) >= 0 ==> ready && p.offset == old(p.offset) && p.Pending() == old(p.Pending())
    ensures old(p.offset) == -1 ==> (ready <==> t == [] || t[0].Byte?)
    ensures ready ==> p.offset >= 0 && t == Ticks(p.Pending()) + d.Stream() && (old(p.offset) == -1 ==> p.offset == 0)
    ensures ready ==> Saving(Saved(|old(p.Pending())|, old(d.events), goal), goal, 0, |p.Pending()|, 0, d.events)
    ensures !ready ==> p.offset == -1 && p.Pending() == [] && d.Stream() == t[1..]
  {
    hide Ticks, NoEmptyChunk;
    if p.offset != -1 { return true; }
    assert t == d.Stream();
    ready := d.Select();
    if ready {
      ghost var events := d.events;
      var k := p.Fill(d);
      if k > 0 && goal > 0 { SavingRefill(Saved(0, events, goal), goal, 0, 0, events); }
    }
  }

  lemma NoTicks(t: seq<Tick>)
    ensures Ticks([]) + t == t
  {
  }

  lemma Cleared(memory: seq<char>, count: nat, tail: seq<char>)
    requires memory == Zeros(count) + tail
    ensures Written(memory, [], count, tail)
  {
    assert [] + Zeros(count) == Zeros(count);
  }

  lemma Started(fresh0: bool, offset: nat, offset0: int, pending0: nat, pending: nat)
    requires if fresh0 then offset == 0 && pending0 == 0 else offset == offset0 && pending == pending0
    ensures Placed(fresh0, offset, offset0, pending0, 0, pending)
  {
  }

  /** After the loop. */
  method Finish(p: FdBufferPair, d: Descriptor, out: array<char>, ghost t: seq<Tick>, count: nat,
                ghost tail: seq<char>, ghost offset0: int, ghost pending0: nat, ghost saved: nat,
                exit: Exit, line_len: nat, copied: nat, starting: nat, ghost line: seq<char>)
    returns (ret: int, errno: Errno)
    requires p.buffer != out && |line| == line_len && L_BUFFER_SIZE < out.Length && |tail| == out.Length - count
    requires -1 <= offset0 && offset0 + pending0 <= L_BUFFER_SIZE && count <= out.Length
    requires LoopLeft(p, d, out, t, count, tail, line, copied, starting, exit)
    requires saved <= count && (line_len == count ==> copied == saved)
    requires exit == Newline ==> line_len + starting == TerminatorAt(offset0, pending0, line_len)
    modifies out
    ensures var r := FastLine(t, count, saved);
            && ret == r.ret && errno == r.errno
            && Ticks(p.Pending()) + d.Stream() == r.rest
            && |r.line| <= count && out[..count] == r.line + Zeros(count - |r.line|)
    ensures out[count..] == if ret > 0 then Terminated(tail, count, TerminatorAt(offset0, pending0, ret)) else tail
  {
    hide FastLine, Written, Ticks, Terminated;
    ExitResult(p, d, out, t, count, tail, line, copied, starting, exit, saved);
    if line_len >= count {
      CallersPart(out[..], line[..copied], count, tail);
      return 0 - line_len, EAGAIN;
    }
    match exit
    case Late =>
      CallersPart(out[..], line, count, tail);
      return -1, ETIME;
    case Over =>
      CallersPart(out[..], line, count, tail);
      return 0 - line_len, if line_len > 0 then EAGAIN else OK;
    case Newline =>
      Deliver(p, d, out, t, count, tail, line, copied, starting);
      CallersPart(out[..], line, count, Terminated(tail, count, line_len + starting));
      return line_len, OK;
  }

  // ---- where the terminator goes ----

  /** The position of the first newline, or the length. */
  function FirstNewline(s: seq<char>): (j: nat)
    ensures j <= |s| && '\n' !in s[..j] && (j < |s| ==> s[j] == '\n')
  {
    if s == [] || s[0] == '\n' then 0
    else
      var j := FirstNewline(s[1..]);
      assert s[..1 + j] == [s[0]] + s[1..][..j];
      1 + j
  }

  /** Before the call: the inner buffer holds a whole line that the caller's buffer can
      take, and the line ends at or behind position `count` of the inner buffer. */
  predicate WillStray(offset: int, pending: seq<char>, count: nat) {
    var j := FirstNewline(pending);
    j < |pending| && j + 1 < count <= offset + j + 1
  }

  /** The terminator leaves the caller's buffer exactly then, whatever is still to be
      read; never when the caller's buffer is larger than the inner one. */
  lemma StrayTerminator(offset: int, pending: seq<char>, stream: seq<Tick>, count: nat, saved: nat)
    requires -1 <= offset && (offset == -1 ==> pending == []) && saved <= count
    ensures var r := CallResult(Ticks(pending) + stream, count, offset == -1, saved);
            r.ret > 0 && TerminatorAt(offset, |pending|, r.ret) >= count <==> WillStray(offset, pending, count)
    ensures offset + |pending| <= 128 < count ==> !WillStray(offset, pending, count)
  {
    hide Ticks, TerminatorAt, Line;
    if FirstNewline(pending) < |pending| {
      BufferedLine(pending, stream, count, saved);
    } else {
      UnbufferedLine(pending, stream, count, saved);
    }
    hide FastLine;
    AtTheEnd(offset, |pending|);
  }

  lemma AtTheEnd(offset: int, pending: nat)
    ensures forall n: nat :: TerminatorAt(offset, pending, n) == if n <= pending then offset + n else n
  {
  }

  /** A line that is buffered to its end is what the call returns, if it is not too long. */
  lemma BufferedLine(pending: seq<char>, stream: seq<Tick>, count: nat, saved: nat)
    requires FirstNewline(pending) < |pending| && saved <= count
    ensures var r, n := FastLine(Ticks(pending) + stream, count, saved), FirstNewline(pending) + 1;
            if n < count then r.ret == n else r.ret <= 0
  {
    hide Line, FastLine, Ticks;
    var t, j := Ticks(pending) + stream, FirstNewline(pending);
    var line, more := pending[..j], pending[j + 1..];
    PartsAround(pending, j);
    TicksConcat(line + ['\n'], more);
    Associate(Ticks(line + ['\n']), Ticks(more), stream);
    LineTo(line, Ticks(more) + stream);
    assert Ended(line + ['\n']) && |line + ['\n']| == j + 1;
    ReturnOf(t, count, saved);
  }

  lemma PartsAround(s: seq<char>, j: nat)
    requires j < |s| && s[j] == '\n'
    ensures s == s[..j] + ['\n'] + s[j + 1..]
  {
  }

  lemma Associate(a: seq<Tick>, b: seq<Tick>, c: seq<Tick>)
    ensures (a + b) + c == a + (b + c)
  {
  }

  lemma ReturnOf(t: seq<Tick>, count: nat, saved: nat)
    requires saved <= count
    ensures var n, r := |Line(t)|, FastLine(t, count, saved);
            && (n >= count ==> r.ret <= 0)
            && (n < count && Ended(Line(t)) ==> r.ret == n)
            && (r.ret > 0 ==> Ended(Line(t)) && r.ret == n < count)
  {
    hide Line;
  }

  /** A line that is not is longer than what is buffered. */
  lemma UnbufferedLine(pending: seq<char>, stream: seq<Tick>, count: nat, saved: nat)
    requires FirstNewline(pending) == |pending| && saved <= count
    ensures var r := FastLine(Ticks(pending) + stream, count, saved); r.ret > 0 ==> |pending| < r.ret < count
  {
    hide Line, Ticks, FastLine;
    assert pending[..FirstNewline(pending)] == pending;
    LineAfter(pending, stream);
    LongerThanBuffered(pending, Line(stream));
    ReturnOf(Ticks(pending) + stream, count, saved);
  }

  lemma LongerThanBuffered(pending: seq<char>, more: seq<char>)
    requires '\n' !in pending
    ensures Ended(pending + more) ==> more != []
  {
    assert pending + [] == pending;
    assert pending != [] ==> pending[|pending| - 1] in pending;
  }

  /** With the 128-byte buffer of the main program it happens: one chunk of 128
      bytes with two lines in it. The second line, 127 bytes, starts at offset 1 of
      the inner buffer and comes out whole, but its terminator goes to index 128. */
  lemma StrayTerminatorHappens() returns (xs: seq<char>)
    ensures |['\n'] + xs + ['\n']| == L_BUFFER_SIZE
    ensures var t := Ticks(['\n'] + xs + ['\n']);
            var second := FastLine(FastLine(t, 128, 0).rest, 128, 0);
            && FastLine(t, 128, 0) == Whole(1, OK, ['\n'], Ticks(xs + ['\n']))
            && second == Whole(127, OK, xs + ['\n'], [])
            && OffsetAfter(-1, 0, [Chunk(['\n'] + xs + ['\n'])], t, 128) == 1
            && TerminatorAt(1, |xs| + 1, second.ret) == 128
  {
    xs := seq(126, (_: nat) => 'x');
    var t := Ticks(['\n'] + xs + ['\n']);
    assert t == Ticks([] + ['\n']) + Ticks(xs + ['\n']);
    NewlineOut(t, 128, 0, [], Ticks(xs + ['\n']));
    assert [] + ['\n'] == ['\n'];
    assert Ticks(xs + ['\n']) == Ticks(xs + ['\n']) + [];
    NewlineOut(Ticks(xs + ['\n']), 128, 0, xs, []);
    GoalReached(t, 128, [], Ticks(xs + ['\n']));
    BehindFirst(Chunk(['\n'] + xs + ['\n']), t);
  }

  /** A first call that reads a whole buffer and finds a newline at its start. */
  lemma BehindFirst(chunk: Event, t: seq<Tick>)
    requires chunk.Chunk? && |chunk.bytes| == L_BUFFER_SIZE
    requires t != [] && t[0].Byte? && Goal(t, 128) == 1 && Ended(Line(t))
    ensures OffsetAfter(-1, 0, [chunk], t, 128) == 1
  {
    hide Goal, Line;
  }
}

/** The main program of readline/main.cpp: lines until the end of the input. */
module ReaderMain {
  import opened Numerals
  import opened LineSpec
  import opened Descriptors
  import opened BufferedReader

  const LINE_SIZE: nat := 128

  /** What a call reported, and what was printed with "%s" after it. */
  datatype Report = Report(ret: int, errno: Errno, shown: string)

  function ReportOf(r: Result): Report {
    Report(r.ret, r.errno, if r.errno == ETIME || Finished(r) then "" else CString(r.line))
  }

  function Reports(calls: seq<Result>): (s: seq<Report>)
    ensures |s| == |calls| && forall i :: 0 <= i < |s| ==> s[i] == ReportOf(calls[i])
  {
    seq(|calls|, i requires 0 <= i < |calls| => ReportOf(calls[i]))
  }

  /** After `done`, which took `saved` of the overlong lines, the session on `t` goes
      on as a session on `now`. */
  ghost predicate Continues(t: seq<Tick>, saved: seq<nat>, done: seq<Report>, now: seq<Tick>) {
    forall more: seq<nat> ::
      done + Reports(Session(now, LINE_SIZE, more)) == Reports(Session(t, LINE_SIZE, saved + more))
  }

  lemma SessionStarts(t: seq<Tick>)
    ensures Continues(t, [], [], t)
  {
    forall more: seq<nat>
      ensures [] + Reports(Session(t, LINE_SIZE, more)) == Reports(Session(t, LINE_SIZE, [] + more))
    {
      assert [] + more == more;
    }
  }

  lemma SessionOnce(now: seq<Tick>, k: nat, more: seq<nat>)
    requires k < LINE_SIZE
    ensures var r := FastLine(now, LINE_SIZE, k);
            Session(now, LINE_SIZE, [k] + more) == if Finished(r) then [r] else [r] + Session(r.rest, LINE_SIZE, more)
  {
    hide FastLine;
    assert ([k] + more)[1..] == more;
  }

  lemma ContinuesWith(t: seq<Tick>, saved: seq<nat>, done: seq<Report>, now: seq<Tick>, more: seq<nat>)
    requires Continues(t, saved, done, now)
    ensures done + Reports(Session(now, LINE_SIZE, more)) == Reports(Session(t, LINE_SIZE, saved + more))
  {
    hide Session, Reports;
  }

  lemma SessionGoesOn(t: seq<Tick>, saved: seq<nat>, done: seq<Report>, now: seq<Tick>, k: nat)
    requires Continues(t, saved, done, now) && k < LINE_SIZE
    ensures var r := FastLine(now, LINE_SIZE, k);
            !Finished(r) ==> Continues(t, saved + [k], done + [ReportOf(r)], r.rest)
  {
    hide FastLine, ReportOf, Session, Finished, Reports;
    var r := FastLine(now, LINE_SIZE, k);
    forall more: seq<nat> | !Finished(r)
      ensures done + [ReportOf(r)] + Reports(Session(r.rest, LINE_SIZE, more))
              == Reports(Session(t, LINE_SIZE, saved + [k] + more))
    {
      SessionOnce(now, k, more);
      ContinuesWith(t, saved, done, now, [k] + more);
      assert saved + [k] + more == saved + ([k] + more);
      ReportsAfter(r, Session(r.rest, LINE_SIZE, more), done);
    }
  }

  lemma SessionStep(t: seq<Tick>, saved: seq<nat>, done: seq<Report>, now: seq<Tick>, k: nat)
    requires Continues(t, saved, done, now) && k < LINE_SIZE
    ensures var r := FastLine(now, LINE_SIZE, k);
            && Finished(r) == (now == []) && (Finished(r) ==> r.rest == [])
            && if Finished(r) then Reports(Session(t, LINE_SIZE, saved + [k])) == done + [ReportOf(r)]
               else |r.rest| < |now| && Continues(t, saved + [k], done + [ReportOf(r)], r.rest)
  {
    hide FastLine, ReportOf, Session, Continues, Reports;
    CallTakes(now, LINE_SIZE, k);
    var r := FastLine(now, LINE_SIZE, k);
    SessionGoesOn(t, saved, done, now, k);
    if Finished(r) {
      SessionOnce(now, k, []);
      ContinuesWith(t, saved, done, now, [k]);
      assert [k] + [] == [k];
      ReportsAfter(r, [], done);
      assert [r] + [] == [r] && Reports([]) == [];
      assert done + [ReportOf(r)] + [] == done + [ReportOf(r)];
    } else {
      EmptyEnds(now, k);
    }
  }

  lemma ReportsAfter(r: Result, more: seq<Result>, done: seq<Report>)
    ensures Reports([r] + more) == [ReportOf(r)] + Reports(more)
    ensures done + Reports([r] + more) == done + [ReportOf(r)] + Reports(more)
  {
    hide ReportOf;
    assert Reports([r] + more) == [ReportOf(r)] + Reports(more);
  }

  lemma EmptyEnds(now: seq<Tick>, k: nat)
    requires k < LINE_SIZE && !Finished(FastLine(now, LINE_SIZE, k))
    ensures now != []
  {
  }

  /** The loop ends, however the input is chunked: at its end, with every byte taken.
      `line` is the 128-byte buffer and the memory behind it; `saved` is what was saved
      of overlong lines, call by call. */
  method PrintLines(p: FdBufferPair, d: Descriptor, line: array<char>)
    returns (reports: seq<Report>, ghost saved: seq<nat>)
    requires p.Valid() && d.Valid() && p.buffer != line && LINE_SIZE < line.Length
    modifies p, p.buffer, d, line
    ensures p.Valid() && d.Valid() && p.Pending() == [] && d.Stream() == []
    ensures reports == Reports(Session(Ticks(old(p.Pending())) + old(d.Stream()), 128, saved))
  {
    hide Session, Ticks, NoEmptyChunk, Reports, Continues;
    ghost var t := Ticks(p.Pending()) + d.Stream();
    reports, saved := [], [];
    SessionStarts(t);
    var done := false;
    while !done
      invariant p.Valid() && d.Valid()
      invariant !done ==> Continues(t, saved, reports, Ticks(p.Pending()) + d.Stream())
      invariant done ==> p.Pending() == [] && d.Stream() == [] && reports == Reports(Session(t, LINE_SIZE, saved))
      decreases !done, |Ticks(p.Pending()) + d.Stream()|
    {
      var report;
      ghost var k;
      done, report, k := PrintLine(p, d, line, t, reports, saved);
      reports, saved := reports + [report], saved + [k];
    }
  }

  /** One turn of the loop: one call, and what is printed of it. */
  method PrintLine(p: FdBufferPair, d: Descriptor, line: array<char>, ghost t: seq<Tick>,
                   ghost reports: seq<Report>, ghost saved: seq<nat>)
    returns (done: bool, report: Report, ghost k: nat)
    requires p.Valid() && d.Valid() && p.buffer != line && LINE_SIZE < line.Length
    requires Continues(t, saved, reports, Ticks(p.Pending()) + d.Stream())
    modifies p, p.buffer, d, line
    ensures p.Valid() && d.Valid()
    ensures k == Saved(|old(p.Pending())|, old(d.events), LINE_SIZE)
    ensures var r := FastLine(Ticks(old(p.Pending())) + old(d.Stream()), LINE_SIZE, k);
            report == ReportOf(r) == Report(r.ret, r.errno, if r.ret > 0 || r.errno == EAGAIN then CString(r.line) else "")
    ensures done ==> p.Pending() == [] && d.Stream() == []
                     && Reports(Session(t, LINE_SIZE, saved + [k])) == reports + [report]
    ensures !done ==> Continues(t, saved + [k], reports + [report], Ticks(p.Pending()) + d.Stream())
                      && |Ticks(p.Pending()) + d.Stream()| < |Ticks(old(p.Pending())) + old(d.Stream())|
  {
    hide FastLine, Session, Ticks, Terminated, TerminatorAt, NoEmptyChunk, Reports, ReportOf, Saved, CString, Continues, Zeros;
    ghost var now := Ticks(p.Pending()) + d.Stream();
    k := Saved(|p.Pending()|, d.events, LINE_SIZE);
    ghost var r := FastLine(now, LINE_SIZE, k);
    CallIsFastLine(now, LINE_SIZE, p.offset == -1, k);
    SessionStep(t, saved, reports, now, k);
    var ret, errno := ReadlineTout(p, d, line, LINE_SIZE);
    CStringBeforeZeros(r.line, LINE_SIZE - |r.line|);
    ReportIs(now, k);
    var shown := "";
    if ret > 0 || errno == EAGAIN { shown := CString(line[..LINE_SIZE]); }
    report := Report(ret, errno, shown);
    done := ret <= 0 && errno == OK;
    if done { NothingLeft(p.Pending(), d.Stream()); }
  }

  lemma NothingLeft(pending: seq<char>, stream: seq<Tick>)
    requires Ticks(pending) + stream == []
    ensures pending == [] && stream == []
  {
    assert |Ticks(pending) + stream| == |pending| + |stream|;
  }

  lemma ReportIs(now: seq<Tick>, k: nat)
    requires k < LINE_SIZE
    ensures var r := FastLine(now, LINE_SIZE, k);
            ReportOf(r) == Report(r.ret, r.errno, if r.ret > 0 || r.errno == EAGAIN then CString(r.line) else "")
  {
    hide CString;
  }

  function Shown(reports: seq<Report>): string {
    if reports == [] then [] else reports[0].shown + Shown(reports[1..])
  }

  predicate NoNul(s: seq<char>) { '\0' !in s }

  /** Without NUL bytes in the input what is printed is what the calls keep. */
  lemma {:induction false} ShownIsKept(t: seq<Tick>, saved: seq<nat>)
    requires NoNul(Bytes(t))
    ensures Shown(Reports(Session(t, LINE_SIZE, saved))) == Kept(Session(t, LINE_SIZE, saved))
    decreases |t|
  {
    var k := First(saved, LINE_SIZE);
    hide FastLine, CString, Bytes;
    CallTakes(t, LINE_SIZE, k);
    CallBytes(t, LINE_SIZE, k);
    var r := FastLine(t, LINE_SIZE, k);
    DeliveredWasTaken(t, k);
    WholeCString(r.line);
    if Finished(r) {
      ShownFirst(r, []);
      assert [r] + [] == [r];
    } else {
      ShownIsKept(r.rest, Others(saved));
      var more := Session(r.rest, LINE_SIZE, Others(saved));
      ShownFirst(r, more);
      assert Session(t, LINE_SIZE, saved) == [r] + more;
    }
  }

  lemma ShownFirst(r: Result, more: seq<Result>)
    requires CString(r.line) == r.line && (Finished(r) ==> r.line == [])
    requires Shown(Reports(more)) == Kept(more)
    ensures Shown(Reports([r] + more)) == Kept([r] + more)
  {
    hide CString, Kept, Shown, Reports;
    KeptAfter(r, more);
    ShownAfter(r, more);
  }

  lemma ShownAfter(r: Result, more: seq<Result>)
    ensures Shown(Reports([r] + more)) == ReportOf(r).shown + Shown(Reports(more))
  {
    hide ReportOf;
    assert Reports([r] + more) == [ReportOf(r)] + Reports(more);
    assert ([ReportOf(r)] + Reports(more))[1..] == Reports(more);
  }

  lemma DeliveredWasTaken(t: seq<Tick>, k: nat)
    requires k < LINE_SIZE
    ensures var r := FastLine(t, LINE_SIZE, k); forall c :: c in r.line ==> c in r.taken
  {
    hide Line;
  }

  lemma WholeCString(s: seq<char>)
    requires NoNul(s)
    ensures CString(s) == s
  {
    assert forall i :: 0 <= i < |s| ==> s[i] in s;
  }

  lemma CStringInside(s: seq<char>)
    ensures |CString(s)| <= |s| && NoNul(CString(s)) && (|CString(s)| == |s| ==> CString(s) == s)
  {
  }

  /** What is printed of calls is no more than they keep, holds no NUL, and is all of it
      when it is as long. */
  lemma {:induction false} ShownAtMost(calls: seq<Result>)
    ensures var shown := Shown(Reports(calls));
            NoNul(shown) && |shown| <= |Kept(calls)| && (|shown| == |Kept(calls)| ==> shown == Kept(calls))
    decreases |calls|
  {
    hide CString, Finished;
    if calls == [] {
    } else {
      var r, more := calls[0], calls[1..];
      ShownAtMost(more);
      CStringInside(r.line);
      assert calls == [r] + more;
      assert Reports(calls) == [ReportOf(r)] + Reports(more);
      assert Reports(calls)[1..] == Reports(more);
    }
  }

  /** What the main program prints of an input is the whole input exactly when it holds no
      NUL, every line, with its newline, is shorter than the buffer, and no pause falls
      into a line. */
  lemma PrintsAllExactlyWhen(t: seq<Tick>, saved: seq<nat>)
    ensures Shown(Reports(Session(t, 128, saved))) == Bytes(t)
            <==> NoNul(Bytes(t)) && ShortLines(t, LINE_SIZE) && PausesBetweenLines(t)
  {
    hide Shown, Kept, Session, ShortLines, PausesBetweenLines, Bytes, Reports;
    ShownAtMost(Session(t, LINE_SIZE, saved));
    KeepsAllExactlyWhen(t, LINE_SIZE, saved);
    if NoNul(Bytes(t)) { ShownIsKept(t, saved); }
  }

  /** An input of 128 bytes that is no line: nothing of it is printed. */
  lemma NothingPrinted(s: seq<char>)
    requires |s| == LINE_SIZE && '\n' !in s && NoNul(s)
    ensures Shown(Reports(Session(Ticks(s), 128, [0]))) == []
  {
    LostAtTheBoundary(s, LINE_SIZE);
    var r := FastLine(Ticks(s), LINE_SIZE, 0);
    NothingToRead();
    var last := FastLine([], LINE_SIZE, 0);
    assert last == Whole(0, OK, [], []);
    hide FastLine, Ticks;
    assert Session([], LINE_SIZE, []) == [last];
    assert Session(Ticks(s), LINE_SIZE, [0]) == [r] + [last];
    BytesAfter(s, []);
    assert Ticks(s) + [] == Ticks(s) && s + Bytes([]) == s;
    ShownIsKept(Ticks(s), [0]);
    assert ([r] + [last])[1..] == [last] && [last][1..] == [];
    assert Kept([last]) == [];
  }
}

/** The table of inner buffers, one for every descriptor ever read. */
module ReaderTable {
  import opened LineSpec
  import opened Descriptors
  import opened BufferedReader

  /** The position of the pair for `fd`, or the number of pairs. */
  function Position(pairs: seq<FdBufferPair>, fd: int): (i: nat)
    ensures i <= |pairs| && (i < |pairs| ==> pairs[i].fd == fd)
    ensures forall j :: 0 <= j < i ==> pairs[j].fd != fd
  {
    if pairs == [] || pairs[0].fd == fd then 0 else 1 + Position(pairs[1..], fd)
  }

  lemma PositionIs(pairs: seq<FdBufferPair>, fd: int, i: nat)
    requires i <= |pairs| && (i < |pairs| ==> pairs[i].fd == fd)
    requires forall j :: 0 <= j < i ==> pairs[j].fd != fd
    ensures Position(pairs, fd) == i
  {
  }

  /** The pairs and their buffers. */
  ghost function Footprint(pairs: seq<FdBufferPair>): set<object> {
    (set p | p in pairs :: p as object) + (set p | p in pairs :: p.buffer as object)
  }

  class Table {
    /** The open descriptors of the process. */
    const files: map<int, Descriptor>
    var pairs: seq<FdBufferPair>

    ghost function Owned(): set<object>
      reads this
    {
      Footprint(pairs)
    }

    ghost predicate Valid()
      reads this, pairs, files.Values
    {
      && (forall i :: 0 <= i < |pairs| ==> pairs[i].Valid())
      && (forall i, j :: 0 <= i < j < |pairs| ==>
            pairs[i] != pairs[j] && pairs[i].fd != pairs[j].fd && pairs[i].buffer != pairs[j].buffer)
      && (forall fd :: fd in files ==> files[fd].Valid())
      && (forall fd, other :: fd in files && other in files && fd != other ==> files[fd] != files[other])
    }

    /** Read from the descriptor and not yet delivered. */
    ghost function PendingOf(fd: int): seq<char>
      requires Valid()
      reads this, pairs, Owned(), files.Values
    {
      var i := Position(pairs, fd);
      if i < |pairs| then pairs[i].Pending() else []
    }

    /** Where the inner buffer of `fd` stands; -1 when it was never read. */
    ghost function OffsetOf(fd: int): int
      reads this, pairs
    {
      var i := Position(pairs, fd);
      if i < |pairs| then pairs[i].offset else -1
    }

    /** All that is still to be delivered of a descriptor. */
    ghost function StreamOf(fd: int): seq<Tick>
      requires Valid() && fd in files
      reads this, pairs, Owned(), files.Values
    {
      Ticks(PendingOf(fd)) + files[fd].Stream()
    }

    constructor (files: map<int, Descriptor>)
      requires forall fd :: fd in files ==> files[fd].Valid()
      requires forall fd, other :: fd in files && other in files && fd != other ==> files[fd] != files[other]
      ensures Valid() && pairs == [] && this.files == files
    {
      this.files := files;
      pairs := [];
    }

    method Find(fd: int) returns (i: nat)
      ensures i == Position(pairs, fd)
    {
      i := 0;
      while i < |pairs|
        invariant i <= |pairs| && forall j :: 0 <= j < i ==> pairs[j].fd != fd
      {
        if pairs[i].fd == fd {
          PositionIs(pairs, fd, i);
          return;
        }
        i := i + 1;
      }
      PositionIs(pairs, fd, i);
    }

    /** The pair for `fd`, made when it is asked for the first time; what is pending for
        any descriptor stays as it is. */
    method PairFor(fd: int) returns (i: nat)
      requires Valid()
      modifies this
      ensures Valid() && i < |pairs| && i == Position(pairs, fd)
      ensures fresh(Owned() - old(Owned())) && old(Owned()) <= Owned()
      ensures forall x :: PendingOf(x) == old(PendingOf(x)) && OffsetOf(x) == old(OffsetOf(x))
    {
      hide NoEmptyChunk, Position, Flatten, Zeros, PendingOf, OffsetOf;
      i := Find(fd);
      if i == |pairs| {
        AddPair(fd);
      }
    }

    method AddPair(fd: int)
      requires Valid() && Position(pairs, fd) == |pairs|
      modifies this
      ensures Valid() && |pairs| == |old(pairs)| + 1 && Position(pairs, fd) == |old(pairs)|
      ensures fresh(Owned() - old(Owned())) && old(Owned()) <= Owned()
      ensures forall x :: PendingOf(x) == old(PendingOf(x)) && OffsetOf(x) == old(OffsetOf(x))
    {
      hide NoEmptyChunk, Position, Flatten, Zeros, Footprint;
      ghost var before := pairs;
      var p := new FdBufferPair(fd);
      pairs := pairs + [p];
      FootprintGrows(before, p);
      PositionIs(pairs, fd, |before|);
      Grown(before, p);
    }

    /** A call for the pair at position `i`. */
    method ReadAt(i: nat, fd: int, out: array<char>, count: nat) returns (ret: int, errno: Errno)
      requires Valid() && fd in files && out !in Owned() && i == Position(pairs, fd) && i < |pairs|
      requires count <= out.Length && L_BUFFER_SIZE < out.Length
      modifies pairs[i], pairs[i].buffer, files[fd], out
      ensures Valid()
      ensures var pending := old(PendingOf(fd));
              var r := CallResult(old(StreamOf(fd)), count, old(OffsetOf(fd)) == -1, Saved(|pending|, old(files[fd].events), count));
              && ret == r.ret && errno == r.errno && StreamOf(fd) == r.rest
              && |r.line| <= count && out[..count] == r.line + Zeros(count - |r.line|)
      ensures out[count..] ==
              if ret > 0 then Terminated(old(out[count..]), count, TerminatorAt(old(OffsetOf(fd)), |old(PendingOf(fd))|, ret))
              else old(out[count..])
      ensures OffsetOf(fd) == OffsetAfter(old(OffsetOf(fd)), |old(PendingOf(fd))|, old(files[fd].events), old(StreamOf(fd)), count)
      ensures forall x :: x != fd ==> PendingOf(x) == old(PendingOf(x)) && OffsetOf(x) == old(OffsetOf(x))
      ensures forall x :: x in files && x != fd ==> files[x].events == old(files[x].events)
    {
      hide FastLine, CallResult, Ticks, Terminated, TerminatorAt, Saved, NoEmptyChunk, Position, Flatten, Zeros, OffsetAfter;
      assert forall x :: x != fd ==> Position(pairs, x) != i;
      assert PendingOf(fd) == pairs[i].Pending() && OffsetOf(fd) == pairs[i].offset;
      ret, errno := ReadlineTout(pairs[i], files[fd], out, count);
      assert PendingOf(fd) == pairs[i].Pending();
    }

    /** A call for `fd` reads on in the stream of that descriptor; the streams of all
        other descriptors stay as they are. */
    method Readline(fd: int, out: array<char>, count: nat) returns (ret: int, errno: Errno)
      requires Valid() && fd in files && out !in Owned()
      requires count <= out.Length && L_BUFFER_SIZE < out.Length
      modifies this, Owned(), files[fd], out
      ensures Valid() && fresh(Owned() - old(Owned()))
      ensures var pending := old(PendingOf(fd));
              var r := CallResult(old(StreamOf(fd)), count, old(OffsetOf(fd)) == -1, Saved(|pending|, old(files[fd].events), count));
              && ret == r.ret && errno == r.errno && StreamOf(fd) == r.rest
              && |r.line| <= count && out[..count] == r.line + Zeros(count - |r.line|)
      ensures out[count..] ==
              if ret > 0 then Terminated(old(out[count..]), count, TerminatorAt(old(OffsetOf(fd)), |old(PendingOf(fd))|, ret))
              else old(out[count..])
      ensures OffsetOf(fd) == OffsetAfter(old(OffsetOf(fd)), |old(PendingOf(fd))|, old(files[fd].events), old(StreamOf(fd)), count)
      ensures forall x :: x in files && x != fd ==>
                StreamOf(x) == old(StreamOf(x)) && OffsetOf(x) == old(OffsetOf(x))
    {
      hide FastLine, CallResult, Ticks, Terminated, TerminatorAt, Saved, NoEmptyChunk, Position, PendingOf, OffsetOf, Flatten, Zeros, OffsetAfter;
      var i := PairFor(fd);
      InOwned(pairs, i);
      assert StreamOf(fd) == old(StreamOf(fd));
      ret, errno := ReadAt(i, fd, out, count);
    }
  }

  lemma InOwned(pairs: seq<FdBufferPair>, i: nat)
    requires i < |pairs|
    ensures pairs[i] in pairs
    ensures pairs[i] as object in Footprint(pairs) && pairs[i].buffer as object in Footprint(pairs)
  {
  }

  lemma FootprintGrows(before: seq<FdBufferPair>, p: FdBufferPair)
    ensures Footprint(before + [p]) == Footprint(before) + {p as object, p.buffer as object}
  {
    forall o | o in Footprint(before) ensures o in Footprint(before + [p]) {
      var k :| 0 <= k < |before| && (o == before[k] as object || o == before[k].buffer as object);
      InOwned(before + [p], k);
    }
    InOwned(before + [p], |before|);
  }

  /** A new pair at the end leaves the positions of the others. */
  lemma Grown(before: seq<FdBufferPair>, p: FdBufferPair)
    requires Position(before, p.fd) == |before|
    ensures forall x ::
              Position(before + [p], x)
              == if Position(before, x) < |before| then Position(before, x) else if x == p.fd then |before| else |before| + 1
  {
    forall x
      ensures Position(before + [p], x)
              == if Position(before, x) < |before| then Position(before, x) else if x == p.fd then |before| else |before| + 1
    {
      var k := Position(before, x);
      PositionIs(before + [p], x, if k < |before| then k else if x == p.fd then |before| else |before| + 1);
    }
  }
}
