/** The multiplexed checksum server (socksrv/socket_srv_mplex.cpp): its list of
    polled descriptors, the one buffer for the requests of all clients, and its answers. */
module MplexServer {
  import opened Numerals
  import opened Descriptors
  import opened ChecksumText
  import opened ChecksumLoops
  import opened ChecksumPipe

  const STDIN: int := 0
  const REQUEST_SIZE: nat := 512

  datatype PollFd = PollFd(fd: int, ready: bool)

  /** What a read from a client brings: end of file, an error, or bytes. */
  datatype Arrival = Closed | Failed | Data(bytes: seq<char>)

  predicate Fits(arrival: Arrival) { arrival.Data? ==> 1 <= |arrival.bytes| <= REQUEST_SIZE }

  function Lower(c: char): char { if 'A' <= c <= 'Z' then (c as int + 32) as char else c }

  /** strncasecmp(text, "close", 5) == 0 */
  predicate AsksToClose(text: string) {
    && |text| >= 5
    && Lower(text[0]) == 'c' && Lower(text[1]) == 'l' && Lower(text[2]) == 'o'
    && Lower(text[3]) == 's' && Lower(text[4]) == 'e'
  }

  /** The static buffer after a read: nothing is put behind the bytes that have come. */
  function Filled(buffer: seq<char>, arrival: Arrival): (after: seq<char>)
    requires |buffer| == REQUEST_SIZE && Fits(arrival)
    ensures |after| == REQUEST_SIZE
  {
    if arrival.Data? then arrival.bytes + buffer[|arrival.bytes|..] else buffer
  }

  /** The request as the server sees it. */
  function Seen(buffer: seq<char>, arrival: Arrival): string
    requires |buffer| == REQUEST_SIZE && Fits(arrival)
  {
    CString(Filled(buffer, arrival))
  }

  predicate Ends(buffer: seq<char>, arrival: Arrival)
    requires |buffer| == REQUEST_SIZE && Fits(arrival)
  {
    arrival.Closed? || AsksToClose(Seen(buffer, arrival))
  }

  /** The static buffer when the call returns: it is cleared after an answer, and not
      when the descriptor is closed. */
  function LeftBehind(buffer: seq<char>, arrival: Arrival): seq<char>
    requires |buffer| == REQUEST_SIZE && Fits(arrival)
  {
    if arrival.Closed? then buffer
    else if AsksToClose(Seen(buffer, arrival)) then Filled(buffer, arrival)
    else Zeros(REQUEST_SIZE)
  }

  /** Between calls the buffer is clear or holds a request to close. */
  predicate Tidy(buffer: seq<char>) {
    && |buffer| == REQUEST_SIZE
    && (buffer == Zeros(REQUEST_SIZE) || AsksToClose(CString(buffer)))
  }

  function Fds(clients: seq<PollFd>): (s: seq<int>)
    ensures |s| == |clients| && forall i :: 0 <= i < |s| ==> s[i] == clients[i].fd
  {
    seq(|clients|, i requires 0 <= i < |clients| => clients[i].fd)
  }

  predicate Distinct(s: seq<int>) { forall i, j :: 0 <= i < j < |s| ==> s[i] != s[j] }

  /** The first client, from index 2 on, that poll() reported. */
  function FirstReady(clients: seq<PollFd>, i: nat): (k: nat)
    requires i <= |clients|
    ensures i <= k <= |clients| && (k < |clients| ==> clients[k].ready)
    ensures forall j :: i <= j < k ==> !clients[j].ready
    decreases |clients| - i
  {
    if i == |clients| || clients[i].ready then i else FirstReady(clients, i + 1)
  }

  class Server {
    const listener: int
    const buffer: array<char>
    var clients: seq<PollFd>
    ghost var open: set<int>
    ghost var answers: seq<(int, bool)>

    /** Standard input, the listening socket, and then the accepted descriptors that
        have not been closed, each once. */
    ghost predicate Valid()
      reads this, buffer
    {
      && buffer.Length == REQUEST_SIZE && Tidy(buffer[..])
      && |clients| >= 2 && clients[0].fd == STDIN && clients[1].fd == listener
      && Distinct(Fds(clients))
      && (forall fd :: fd in open <==> fd in Fds(clients)[2..])
    }

    constructor (listener: int)
      requires listener != STDIN
      ensures Valid() && fresh(buffer) && buffer[..] == Zeros(512) && this.listener == listener && open == {} && answers == []
      ensures Fds(clients) == [STDIN, listener]
    {
      this.listener := listener;
      buffer := new char[REQUEST_SIZE](_ => '\0');
      clients := [PollFd(STDIN, false), PollFd(listener, false)];
      open := {};
      answers := [];
    }

    /** close() */
    method Close(fd: int)
      modifies this`open
      ensures open == old(open) - {fd}
    {
      open := open - {fd};
    }

    /** read(): its result, and its bytes in the buffer. */
    method Read(arrival: Arrival) returns (len: int)
      requires buffer.Length == REQUEST_SIZE && Fits(arrival)
      modifies buffer
      ensures len == (match arrival case Closed => 0 case Failed => -1 case Data(bytes) => |bytes|)
      ensures buffer[..] == Filled(old(buffer[..]), arrival)
    {
      match arrival
      case Closed => len := 0;
      case Failed => len := -1;
      case Data(bytes) =>
        Copy(buffer, 0, bytes);
        len := |bytes|;
    }

    /** read_data_from_client: negative exactly when the descriptor has been closed.
        `junk` is what `current_num` holds before anything is scanned into it. */
    method ReadDataFromClient(fd: int, arrival: Arrival, junk: int) returns (r: int)
      requires buffer.Length == REQUEST_SIZE && Tidy(buffer[..]) && Fits(arrival)
      modifies this`open, this`answers, buffer
      ensures Tidy(buffer[..]) && buffer[..] == LeftBehind(old(buffer[..]), arrival)
      ensures arrival.Closed? ==> buffer[..] == old(buffer[..])
      ensures r < 0 && arrival.Data? ==> buffer[..] == arrival.bytes + old(buffer[..])[|arrival.bytes|..]
      ensures r < 0 && arrival.Failed? ==> buffer[..] == old(buffer[..])
      ensures r == 0 ==> buffer[..] == Zeros(512)
      ensures r == if Ends(old(buffer[..]), arrival) then -1 else 0
      ensures open == if r < 0 then old(open) - {fd} else old(open)
      ensures r < 0 ==> answers == old(answers)
      ensures r >= 0 ==> answers == old(answers) + [(fd, Verdict(Seen(old(buffer[..]), arrival), junk))]
    {
      hide ScanInt, Numbers, Sum, CString;
      var len := Read(arrival);
      if len == 0 {
        Close(fd);
        return -1;
      }
      var text := CString(buffer[..]);
      if AsksToClose(text) {
        Close(fd);
        return -1;
      }
      var sum, current, offset := 0, junk, 0;
      ghost var done: seq<int> := [];
      assert text[0..] == text;
      SumOfNone();
      while ScanInt(text[offset..]).Match?
        invariant 0 <= offset <= |text|
        invariant Numbers(text) == done + Numbers(text[offset..])
        invariant sum == Sum(done) && current == LastOf(done, junk)
        invariant open == old(open) && answers == old(answers)
        decreases |text| - offset
      {
        OneMore(text, offset, done);
        var m := ScanInt(text[offset..]);
        current := m.value;
        sum := sum + current;
        offset := offset + m.used;
        done := done + [current];
        if m.used <= 0 { return -1; }
      }
      NoneLeft(text[offset..]);
      assert Numbers(text) == done;
      sum := sum - current;
      answers := answers + [(fd, sum == current)];
      Clear(buffer, REQUEST_SIZE);
      return 0;
    }

    /** accept(): the kernel hands out a descriptor that is not in use. */
    method Accept(fd: int, flagged: bool)
      requires Valid() && fd !in Fds(clients)
      modifies this`clients, this`open
      ensures Valid() && clients == old(clients) + [PollFd(fd, flagged)] && open == old(open) + {fd}
      ensures buffer[..] == old(buffer[..])
    {
      ghost var before := Fds(clients);
      clients := clients + [PollFd(fd, flagged)];
      open := open + {fd};
      assert Fds(clients) == before + [fd];
      assert Fds(clients)[2..] == before[2..] + [fd];
    }

    /** The loop over the clients: the first ready one is served and, when it has been
        closed, erased; all others stay, and nothing happens when none is ready. */
    method ServeOne(arrivals: map<int, Arrival>, junk: int)
      requires Valid() && Arrived(clients, arrivals)
      modifies this, buffer
      ensures Valid()
      ensures var service := Served(old(clients), arrivals, old(buffer[..]), junk);
              && clients == service.clients && open == old(open) - service.closed
              && answers == old(answers) + service.answers && buffer[..] == service.buffer
      ensures forall k :: ReadyFirst(old(clients), k) ==>
                var fd := old(clients)[k].fd;
                && buffer[..] == LeftBehind(old(buffer[..]), arrivals[fd])
                && if Ends(old(buffer[..]), arrivals[fd]) then
                     && clients == old(clients)[..k] + old(clients)[k + 1..]
                     && open == old(open) - {fd} && answers == old(answers)
                   else
                     && clients == old(clients) && open == old(open)
                     && answers == old(answers) + [(fd, Verdict(Seen(old(buffer[..]), arrivals[fd]), junk))]
      ensures NoneReady(old(clients)) ==>
                clients == old(clients) && open == old(open) && answers == old(answers) && buffer[..] == old(buffer[..])
    {
      hide Served, LeftBehind, Ends, Seen, Verdict, Tidy, Fds, Distinct, FirstReady, Fits;
      var i := 2;
      while i < |clients| && !clients[i].ready
        invariant 2 <= i <= |clients| && clients == old(clients) && open == old(open) && answers == old(answers)
        invariant buffer[..] == old(buffer[..]) && forall j :: 2 <= j < i ==> !clients[j].ready
        decreases |clients| - i
      {
        i := i + 1;
      }
      if i == |clients| {
        ServesNobody(clients, arrivals, buffer[..], junk);
      } else {
        ServedIs(clients, arrivals, buffer[..], junk, i);
        ServeAt(i, arrivals, junk);
      }
    }

    /** Client `i` is served and, when it has been closed, erased. */
    method ServeAt(i: nat, arrivals: map<int, Arrival>, junk: int)
      requires Valid() && Arrived(clients, arrivals) && 2 <= i < |clients|
      modifies this, buffer
      ensures Valid()
      ensures var fd := old(clients)[i].fd;
              && buffer[..] == LeftBehind(old(buffer[..]), arrivals[fd])
              && if Ends(old(buffer[..]), arrivals[fd]) then
                   && clients == old(clients)[..i] + old(clients)[i + 1..]
                   && open == old(open) - {fd} && answers == old(answers)
                 else
                   && clients == old(clients) && open == old(open)
                   && answers == old(answers) + [(fd, Verdict(Seen(old(buffer[..]), arrivals[fd]), junk))]
    {
      hide LeftBehind, Ends, Seen, Verdict, Tidy, Fits, Filled;
      var fd := clients[i].fd;
      ghost var before := clients;
      var r := ReadDataFromClient(fd, arrivals[fd], junk);
      if r < 0 {
        EraseKeeps(clients, old(open), i);
        clients := clients[..i] + clients[i + 1..];
      }
      assert clients[0] == before[0] && clients[1] == before[1];
    }

    /** One pass of the server after poll() has filled in who is ready. A newly
        accepted client is checked in the same pass, with an indeterminate flag. */
    method Pass(ready: seq<bool>, newcomer: int, flagged: bool, arrivals: map<int, Arrival>, junk: int)
      requires Valid() && |ready| == |clients|
      requires ready[1] ==> newcomer !in Fds(clients) && newcomer in arrivals && Fits(arrivals[newcomer])
      requires Arrived(clients, arrivals)
      modifies this, buffer
      ensures Valid()
      ensures var polled := Polled(old(clients), ready) + if ready[1] then [PollFd(newcomer, flagged)] else [];
              && Arrived(polled, arrivals)
              && var service := Served(polled, arrivals, old(buffer[..]), junk);
                 && clients == service.clients
                 && open == old(open) + (if ready[1] then {newcomer} else {}) - service.closed
                 && answers == old(answers) + service.answers && buffer[..] == service.buffer
    {
      hide Served;
      ghost var polled := Polled(clients, ready) + if ready[1] then [PollFd(newcomer, flagged)] else [];
      clients := Polled(clients, ready);
      assert Fds(clients) == old(Fds(clients));
      if clients[1].ready {
        Accept(newcomer, flagged);
      }
      assert clients == polled;
      ServeOne(arrivals, junk);
    }
  }

  /** The list with the flags that poll() has set. */
  function Polled(clients: seq<PollFd>, ready: seq<bool>): (s: seq<PollFd>)
    requires |ready| == |clients|
    ensures |s| == |clients| && forall i :: 0 <= i < |s| ==> s[i] == PollFd(clients[i].fd, ready[i])
  {
    seq(|clients|, i requires 0 <= i < |clients| => PollFd(clients[i].fd, ready[i]))
  }

  /** It is known what a read from each client would bring. */
  predicate Arrived(clients: seq<PollFd>, arrivals: map<int, Arrival>) {
    && |clients| >= 2
    && forall i :: 2 <= i < |clients| ==> clients[i].fd in arrivals && Fits(arrivals[clients[i].fd])
  }

  datatype Service = Service(clients: seq<PollFd>, closed: set<int>, answers: seq<(int, bool)>, buffer: seq<char>)

  /** At most one client is served in a pass, and erased exactly when it is closed. */
  function Served(polled: seq<PollFd>, arrivals: map<int, Arrival>, buffer: seq<char>, junk: int): Service
    requires Arrived(polled, arrivals) && |buffer| == REQUEST_SIZE
  {
    var k := FirstReady(polled, 2);
    if k == |polled| then Service(polled, {}, [], buffer)
    else
      var fd := polled[k].fd;
      var after := LeftBehind(buffer, arrivals[fd]);
      if Ends(buffer, arrivals[fd]) then Service(polled[..k] + polled[k + 1..], {fd}, [], after)
      else Service(polled, {}, [(fd, Verdict(Seen(buffer, arrivals[fd]), junk))], after)
  }

  /** Client `k` is ready and none before it is. */
  predicate ReadyFirst(polled: seq<PollFd>, k: int) {
    2 <= k < |polled| && polled[k].ready && forall j :: 2 <= j < k ==> !polled[j].ready
  }

  predicate NoneReady(polled: seq<PollFd>) { forall k :: 2 <= k < |polled| ==> !polled[k].ready }

  lemma FirstOrNone(polled: seq<PollFd>)
    requires |polled| >= 2
    ensures forall k :: ReadyFirst(polled, k) ==> FirstReady(polled, 2) == k
    ensures NoneReady(polled) ==> FirstReady(polled, 2) == |polled|
  {
  }

  /** Of several ready clients the first is served, answered or closed, and nobody else;
      it is erased exactly when it is closed, and all other entries stay. */
  lemma ServesFirst(polled: seq<PollFd>, arrivals: map<int, Arrival>, buffer: seq<char>, junk: int, k: nat)
    requires Arrived(polled, arrivals) && |buffer| == REQUEST_SIZE && ReadyFirst(polled, k)
    ensures var service, fd := Served(polled, arrivals, buffer, junk), polled[k].fd;
            && service.closed == (if Ends(buffer, arrivals[fd]) then {fd} else {})
            && service.answers == (if Ends(buffer, arrivals[fd]) then [] else [(fd, Verdict(Seen(buffer, arrivals[fd]), junk))])
            && |service.clients| == |polled| - |service.closed|
            && (forall i :: 0 <= i < |service.clients| ==>
                  service.clients[i] == polled[if service.closed != {} && i >= k then i + 1 else i])
  {
    FirstOrNone(polled);
  }

  lemma ServedIs(polled: seq<PollFd>, arrivals: map<int, Arrival>, buffer: seq<char>, junk: int, k: nat)
    requires Arrived(polled, arrivals) && |buffer| == REQUEST_SIZE && ReadyFirst(polled, k)
    ensures Served(polled, arrivals, buffer, junk)
            == var fd := polled[k].fd;
               var after := LeftBehind(buffer, arrivals[fd]);
               if Ends(buffer, arrivals[fd]) then Service(polled[..k] + polled[k + 1..], {fd}, [], after)
               else Service(polled, {}, [(fd, Verdict(Seen(buffer, arrivals[fd]), junk))], after)
    ensures forall j :: ReadyFirst(polled, j) ==> j == k
  {
    hide LeftBehind, Ends, Seen, Verdict;
    FirstOrNone(polled);
  }

  lemma ServesNobody(polled: seq<PollFd>, arrivals: map<int, Arrival>, buffer: seq<char>, junk: int)
    requires Arrived(polled, arrivals) && |buffer| == REQUEST_SIZE && NoneReady(polled)
    ensures Served(polled, arrivals, buffer, junk) == Service(polled, {}, [], buffer)
  {
    FirstOrNone(polled);
  }

  // ---- which texts ask to close ----

  /** Position by position a letter of "close" or of "CLOSE". */
  lemma ClosingTexts(text: string)
    ensures AsksToClose(text) <==>
              |text| >= 5 && forall i :: 0 <= i < 5 ==> text[i] == "close"[i] || text[i] == "CLOSE"[i]
  {
    if |text| >= 5 {
      LowerIs(text[0], 0);
      LowerIs(text[1], 1);
      LowerIs(text[2], 2);
      LowerIs(text[3], 3);
      LowerIs(text[4], 4);
      hide Lower;
    }
  }

  lemma LowerIs(c: char, i: nat)
    requires i < 5
    ensures Lower(c) == "close"[i] <==> c == "close"[i] || c == "CLOSE"[i]
  {
    assert "close"[i] as int == "CLOSE"[i] as int + 32;
  }

  /** A call closes the descriptor exactly at the end of the file, after a failed read when
      a request to close has been left behind, and on a request to close; a request of
      five bytes or more is one by its first five bytes alone. */
  lemma EndsExactlyWhen(buffer: seq<char>, arrival: Arrival)
    requires Tidy(buffer) && Fits(arrival)
    ensures arrival.Closed? ==> Ends(buffer, arrival)
    ensures arrival.Failed? ==> (Ends(buffer, arrival) <==> buffer != Zeros(REQUEST_SIZE))
    ensures arrival.Data? && |arrival.bytes| >= 5 ==>
              (Ends(buffer, arrival) <==>
                 forall i :: 0 <= i < 5 ==> arrival.bytes[i] == "close"[i] || arrival.bytes[i] == "CLOSE"[i])
  {
    hide CString, AsksToClose;
    var filled := Filled(buffer, arrival);
    ClosingTexts(CString(filled));
    ClosingStarts(filled);
    if arrival.Failed? { ClearText(); }
  }

  lemma ClearText()
    ensures CString(Zeros(REQUEST_SIZE)) == [] && !AsksToClose([])
  {
  }

  /** Letters are no NULs. */
  lemma ClosingStarts(b: seq<char>)
    requires |b| >= 5
    ensures (|CString(b)| >= 5 && forall i :: 0 <= i < 5 ==> CString(b)[i] == "close"[i] || CString(b)[i] == "CLOSE"[i])
            <==> forall i :: 0 <= i < 5 ==> b[i] == "close"[i] || b[i] == "CLOSE"[i]
  {
    hide CString;
    var s := CString(b);
    assert forall i :: 0 <= i < |s| ==> s[i] == b[i];
    assert forall i :: 0 <= i < 5 ==> "close"[i] != '\0' && "CLOSE"[i] != '\0';
  }

  /** No request that starts with a number does. */
  lemma NumbersAreAnswered(text: string)
    requires Numbers(text) != []
    ensures !AsksToClose(text)
  {
    hide Numbers, AsksToClose;
    ClosingTexts(text);
    if text != [] { LetterFirst(text); }
  }

  lemma LetterFirst(text: string)
    requires text != []
    ensures text[0] == 'c' || text[0] == 'C' ==> Numbers(text) == []
  {
    if text[0] == 'c' || text[0] == 'C' {
      assert Spaces(text) == 0 && text[0..] == text && SignLength(text) == 0 && Digits(text) == 0;
    }
  }

  /** From a clear buffer every checksum line is answered, and with OK exactly when the
      claimed sum is right. */
  lemma ClearAnswersLine(pid: nat, digits: seq<int>, claimed: nat, junk: int)
    requires AreDigits(digits) && |LineText(pid, digits, claimed)| <= REQUEST_SIZE
    ensures var arrival := Data(LineText(pid, digits, claimed));
            && !Ends(Zeros(REQUEST_SIZE), arrival)
            && LeftBehind(Zeros(REQUEST_SIZE), arrival) == Zeros(REQUEST_SIZE)
            && (Verdict(Seen(Zeros(REQUEST_SIZE), arrival), junk) <==> claimed == pid + Sum(digits))
  {
    var line := LineText(pid, digits, claimed);
    assert |line| >= 1;
    LineHasNoNul(pid, digits, claimed);
    LineParses(pid, digits, claimed);
    AcceptedExactlyWhenRight(pid, digits, claimed);
    hide LineText, Numbers, CString, Sum, Verdict, Seen, AsksToClose;
    ClearReadsAlone(line);
    NoNulInside(line);
    NumbersAreAnswered(line);
    VerdictIsChecksum(line, junk);
  }

  function LastOf(numbers: seq<int>, junk: int): int {
    if numbers == [] then junk else numbers[|numbers| - 1]
  }

  /** Whether a request is answered with OK: for a text without any number this
      depends on what happens to be in memory. */
  function Verdict(text: string, junk: int): bool {
    var numbers := Numbers(text);
    Sum(numbers) - LastOf(numbers, junk) == LastOf(numbers, junk)
  }

  lemma SumOfNone()
    ensures Sum([]) == 0
  {
  }

  /** A request that starts with a number is answered OK exactly when its last number
      is the sum of the others. */
  lemma VerdictIsChecksum(text: string, junk: int)
    requires Numbers(text) != []
    ensures Verdict(text, junk) <==> SumsUp(Numbers(text))
  {
    LastApart(Numbers(text));
  }

  /** The answer to a request is decided by the request, whatever the variable held
      before, exactly when the request starts with a number. */
  lemma DecidedExactlyWhen(text: string)
    ensures (forall j, k :: Verdict(text, j) == Verdict(text, k)) <==> Numbers(text) != []
  {
    if Numbers(text) == [] {
      SumOfNone();
      assert Verdict(text, 0) && !Verdict(text, 1);
    }
  }

  /** "hello" is answered OK when the variable happens to hold 0, and ERR otherwise. */
  lemma HelloIsUndecided(junk: int)
    ensures Numbers("hello") == [] && (Verdict("hello", junk) <==> junk == 0)
  {
    var s := "hello";
    assert Spaces(s) == 0 && s[0..] == s && SignLength(s) == 0 && Digits(s) == 0;
    SumOfNone();
  }

  // ---- what the static buffer brings into a request ----

  /** A request is read alone, whatever was read before it, exactly when it brings a NUL,
      fills the buffer, or ends where an earlier request that has been left behind does. */
  lemma ReadAloneExactlyWhen(buffer: seq<char>, bytes: seq<char>)
    requires |buffer| == REQUEST_SIZE && 1 <= |bytes| <= REQUEST_SIZE
    ensures Seen(buffer, Data(bytes)) == CString(bytes)
            <==> '\0' in bytes || |bytes| == REQUEST_SIZE || buffer[|bytes|] == '\0'
  {
    hide CString;
    var rest := buffer[|bytes|..];
    if '\0' in bytes {
      NulEnds(bytes, rest);
    } else {
      CStringAppend(bytes, rest);
      CStringAppend(bytes, []);
      assert bytes + [] == bytes;
      assert |CString(bytes)| == |bytes|;
      assert Seen(buffer, Data(bytes)) == bytes + CString(rest);
    }
  }

  lemma NulEnds(bytes: seq<char>, rest: seq<char>)
    requires '\0' in bytes
    ensures CString(bytes + rest) == CString(bytes)
  {
    hide CString;
    var i :| 0 <= i < |bytes| && bytes[i] == '\0';
    var text := CString(bytes);
    assert |text| <= i;
    assert bytes + rest == text + ['\0'] + (bytes[|text| + 1..] + rest);
    CStringOf(text, bytes[|text| + 1..] + rest);
  }

  /** After an answer, and before the first request, every request is read alone. */
  lemma ClearReadsAlone(bytes: seq<char>)
    requires 1 <= |bytes| <= REQUEST_SIZE
    ensures Seen(Zeros(REQUEST_SIZE), Data(bytes)) == CString(bytes)
  {
    ReadAloneExactlyWhen(Zeros(REQUEST_SIZE), bytes);
  }

  /** A checksum line is followed by what an earlier client has left behind it: with a
      right sum it is answered OK exactly when that starts with no number, or adds up too. */
  lemma LineAfterClose(buffer: seq<char>, pid: nat, digits: seq<int>, claimed: nat, junk: int)
    requires |buffer| == REQUEST_SIZE && AreDigits(digits) && |LineText(pid, digits, claimed)| <= REQUEST_SIZE
    requires claimed == pid + Sum(digits)
    ensures var line, numbers := LineText(pid, digits, claimed), [pid as int] + digits + [claimed as int];
            var tail := Numbers(CString(buffer[|line|..]));
            && Numbers(Seen(buffer, Data(line))) == numbers + tail
            && (Verdict(Seen(buffer, Data(line)), junk) <==> tail == [] || SumsUp(numbers + tail))
  {
    hide Numbers, Decimal, DigitsText, Sum, CString, LineText;
    var line := LineText(pid, digits, claimed);
    var rest := buffer[|line|..];
    LineHasNoNul(pid, digits, claimed);
    CStringAppend(line, rest);
    NumbersAfterLine(pid, digits, claimed, CString(rest));
    var numbers := [pid as int] + digits + [claimed as int];
    VerdictIsChecksum(line + CString(rest), junk);
    AcceptedExactlyWhenRight(pid, digits, claimed);
    LineParses(pid, digits, claimed);
    assert numbers + [] == numbers;
  }

  /** After a client that has left with "close 7" the right line "1 2 3" is answered ERR. */
  lemma TailOfAnother(junk: int)
    ensures var buffer := "close 7\n" + Zeros(REQUEST_SIZE - 8);
            && LeftBehind(Zeros(REQUEST_SIZE), Data("close 7\n")) == buffer
            && SumsUp(Numbers("1 2 3\n")) && !Verdict(Seen(buffer, Data("1 2 3\n")), junk)
  {
    hide Numbers, Verdict, LineText, CString, Decimal, Seen, LeftBehind, Sum, SumsUp, AsksToClose;
    var buffer := "close 7\n" + Zeros(REQUEST_SIZE - 8);
    LineOneTwoThree();
    LineParses(1, [2], 3);
    LineAfterClose(buffer, 1, [2], 3, junk);
    LeavesWithSeven(buffer);
    assert [1] + [2] + [3] == [1, 2, 3] && [1, 2, 3] + [7] == [1, 2, 3, 7];
    SumOfThree();
  }

  lemma LeavesWithSeven(buffer: seq<char>)
    requires buffer == "close 7\n" + Zeros(REQUEST_SIZE - 8)
    ensures LeftBehind(Zeros(REQUEST_SIZE), Data("close 7\n")) == buffer
    ensures Numbers(CString(buffer[6..])) == [7]
  {
    hide Numbers, Decimal;
    TextBeforeZeros("close 7\n");
    TextBeforeZeros("7\n");
    assert AsksToClose("close 7\n");
    hide CString, AsksToClose;
    assert Filled(Zeros(REQUEST_SIZE), Data("close 7\n")) == buffer;
    assert buffer[6..] == "7\n" + Zeros(REQUEST_SIZE - 8);
    NumbersOfSeven();
  }

  lemma TextBeforeZeros(text: string)
    requires forall i :: 0 <= i < |text| ==> text[i] != '\0'
    ensures CString(text + Zeros(REQUEST_SIZE - 8)) == text
  {
    CStringBeforeZeros(text, REQUEST_SIZE - 8);
    CStringAppend(text, []);
    assert text + [] == text;
  }

  lemma NumbersOfSeven()
    ensures Numbers("7\n") == [7]
  {
    hide Numbers;
    NumbersAfterDecimal(7, '\n', []);
    NothingInNothing();
    assert Decimal(7) + ['\n'] + [] == "7\n";
  }

  lemma SumOfThree()
    ensures !SumsUp([1, 2, 3, 7]) && SumsUp([1, 2, 3])
  {
    assert [1, 2, 3, 7][..3] == [1, 2, 3] && [1, 2, 3][..2] == [1, 2] && [1, 2][..1] == [1] && [1][..0] == [];
    assert Sum([]) == 0 && Sum([1]) == 1 && Sum([1, 2]) == 3;
  }

  lemma LineHasNoNul(pid: nat, digits: seq<int>, claimed: nat)
    requires AreDigits(digits)
    ensures forall i :: 0 <= i < |LineText(pid, digits, claimed)| ==> LineText(pid, digits, claimed)[i] != '\0'
  {
    DecimalPlain(pid);
    DecimalPlain(claimed);
    DigitsPlain(digits);
    hide Decimal, DigitsText;
  }

  lemma NumbersAfterLine(pid: nat, digits: seq<int>, claimed: nat, rest: string)
    requires AreDigits(digits)
    ensures Numbers(LineText(pid, digits, claimed) + rest) == [pid as int] + digits + [claimed as int] + Numbers(rest)
  {
    hide Numbers, Decimal, DigitsText, LineText;
    var last := Decimal(claimed) + ['\n'] + rest;
    LineParts(pid, digits, claimed);
    assert LineText(pid, digits, claimed) + rest == Decimal(pid) + [' '] + (DigitsText(digits) + last);
    NumbersAfterDecimal(claimed, '\n', rest);
    NumbersAfterDigits(digits, last);
    NumbersAfterDecimal(pid, ' ', DigitsText(digits) + last);
    assert [pid as int] + (digits + ([claimed as int] + Numbers(rest)))
        == [pid as int] + digits + [claimed as int] + Numbers(rest);
  }

  /** Erasing a client takes its descriptor, and no other, out of the list. */
  lemma EraseKeeps(clients: seq<PollFd>, open: set<int>, i: nat)
    requires 2 <= i < |clients| && Distinct(Fds(clients))
    requires forall fd :: fd in open <==> fd in Fds(clients)[2..]
    ensures var rest := clients[..i] + clients[i + 1..];
            && Distinct(Fds(rest))
            && forall fd :: fd in open - {clients[i].fd} <==> fd in Fds(rest)[2..]
  {
    var rest := clients[..i] + clients[i + 1..];
    var s, t := Fds(clients), Fds(rest);
    assert t == s[..i] + s[i + 1..];
    assert s[2..] == s[2..i] + [s[i]] + s[i + 1..];
    assert t[2..] == s[2..i] + s[i + 1..];
  }
}
