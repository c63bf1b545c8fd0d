/** The checksum line "pid d1 ... dk sum" and the loop that checks it
    (readline/producer.cpp, socksrv/socket_cl.cpp). */
module ChecksumText {
  import opened Numerals

  const INT_MAX: nat := 0x7FFF_FFFF

  /** All numbers that can be scanned one after the other from the start of a text. */
  function Numbers(s: string): seq<int>
    decreases |s|
  {
    match ScanInt(s)
    case NoMatch => []
    case Match(v, n) =>
      ScanAdvances(s);
      [v] + Numbers(s[n..])
  }

  function Sum(s: seq<int>): int { if s == [] then 0 else Sum(s[..|s| - 1]) + s[|s| - 1] }

  /** The last number is the sum of the others. */
  predicate SumsUp(numbers: seq<int>)
    requires numbers != []
  {
    numbers[|numbers| - 1] == Sum(numbers[..|numbers| - 1])
  }

  predicate AreDigits(digits: seq<int>) { forall i :: 0 <= i < |digits| ==> 0 <= digits[i] < 10 }

  /** Each digit followed by a space. */
  function DigitsText(digits: seq<int>): string
    requires AreDigits(digits)
  {
    if digits == [] then [] else DigitsText(digits[..|digits| - 1]) + Decimal(digits[|digits| - 1]) + [' ']
  }

  function LineText(pid: nat, digits: seq<int>, claimed: nat): string
    requires AreDigits(digits)
  {
    Decimal(pid) + [' '] + DigitsText(digits) + Decimal(claimed) + ['\n']
  }

  lemma {:induction false} SumConcat(a: seq<int>, b: seq<int>)
    ensures Sum(a + b) == Sum(a) + Sum(b)
    decreases |b|
  {
    if b == [] {
      assert a + b == a;
    } else {
      assert (a + b)[..|a + b| - 1] == a + b[..|b| - 1];
      SumConcat(a, b[..|b| - 1]);
    }
  }

  // ---- what printing wrote, scanning finds ----

  lemma NumbersAfterSpace(c: char, s: string)
    requires IsSpace(c)
    ensures Numbers([c] + s) == Numbers(s)
  {
    ScanAfterSpace(c, s);
    hide ScanInt;
    if ScanInt(s).Match? {
      var n := ScanInt(s).used;
      ScanAdvances(s);
      assert ([c] + s)[n + 1..] == s[n..];
    }
  }

  lemma NumbersAfterDecimal(n: nat, c: char, s: string)
    requires IsSpace(c)
    ensures Numbers(Decimal(n) + [c] + s) == [n as int] + Numbers(s)
  {
    var t := Decimal(n) + ([c] + s);
    assert Decimal(n) + [c] + s == t;
    ScanDecimal(n, [c] + s);
    hide ScanInt, Decimal;
    assert t[|Decimal(n)|..] == [c] + s;
    NumbersAfterSpace(c, s);
  }

  lemma {:induction false} NumbersAfterDigits(digits: seq<int>, s: string)
    requires AreDigits(digits)
    ensures Numbers(DigitsText(digits) + s) == digits + Numbers(s)
    decreases |digits|
  {
    hide Numbers, Decimal;
    if digits == [] {
      assert DigitsText(digits) + s == s;
    } else {
      var front, d := digits[..|digits| - 1], digits[|digits| - 1];
      assert DigitsText(digits) + s == DigitsText(front) + (Decimal(d) + [' '] + s);
      NumbersAfterDigits(front, Decimal(d) + [' '] + s);
      NumbersAfterDecimal(d, ' ', s);
      assert front + ([d] + Numbers(s)) == digits + Numbers(s);
    }
  }

  /** The line parses back to the process id, the digits and the claimed sum. */
  lemma LineParses(pid: nat, digits: seq<int>, claimed: nat)
    requires AreDigits(digits)
    ensures Numbers(LineText(pid, digits, claimed)) == [pid as int] + digits + [claimed as int]
  {
    hide Numbers, Decimal, DigitsText, LineText;
    var last := Decimal(claimed) + ['\n'];
    LineParts(pid, digits, claimed);
    NothingInNothing();
    NumbersAfterDecimal(claimed, '\n', []);
    NumbersAfterDigits(digits, last);
    NumbersAfterDecimal(pid, ' ', DigitsText(digits) + last);
    assert [claimed as int] + [] == [claimed as int];
    assert [pid as int] + (digits + [claimed as int]) == [pid as int] + digits + [claimed as int];
  }

  lemma LineParts(pid: nat, digits: seq<int>, claimed: nat)
    requires AreDigits(digits)
    ensures LineText(pid, digits, claimed) == Decimal(pid) + [' '] + (DigitsText(digits) + (Decimal(claimed) + ['\n']))
    ensures Decimal(claimed) + ['\n'] + [] == Decimal(claimed) + ['\n']
  {
    hide Decimal, DigitsText;
  }

  lemma NothingInNothing()
    ensures Numbers([]) == []
  {
  }

  /** The check accepts the line exactly when the claimed sum is the right one. */
  lemma AcceptedExactlyWhenRight(pid: nat, digits: seq<int>, claimed: nat)
    requires AreDigits(digits)
    ensures Numbers(LineText(pid, digits, claimed)) != []
    ensures SumsUp(Numbers(LineText(pid, digits, claimed))) <==> claimed == pid + Sum(digits)
  {
    LineParses(pid, digits, claimed);
    hide Numbers, LineText;
    var numbers := [pid as int] + digits + [claimed as int];
    assert numbers[..|numbers| - 1] == [pid as int] + digits;
    SumConcat([pid as int], digits);
    SumOfOne(pid);
  }

  /** A whole line, character by character. */
  lemma LineOneTwoThree()
    ensures LineText(1, [2], 3) == "1 2 3\n" && Sum([2]) == 2
  {
    assert DigitsText([2]) == "2 " by { assert DigitsText([]) == []; }
    assert Sum([]) == 0;
  }

  // ---- sizes ----

  lemma {:induction false} DigitsSize(digits: seq<int>)
    requires AreDigits(digits)
    ensures |DigitsText(digits)| == 2 * |digits| && 0 <= Sum(digits) <= 9 * |digits|
    decreases |digits|
  {
    if digits == [] {
    } else {
      DigitsSize(digits[..|digits| - 1]);
    }
  }

  /** The line fits into 512 bytes with its NUL for every process id an int can hold. */
  lemma LineFits(pid: nat, digits: seq<int>, claimed: nat)
    requires AreDigits(digits) && |digits| < 30 && pid <= INT_MAX && claimed <= pid + Sum(digits) + 1
    ensures |LineText(pid, digits, claimed)| <= 81
  {
    DigitsSize(digits);
    DecimalLength(pid, 10, Power10(10));
    DecimalLength(claimed, 11, Power10(11));
    hide Decimal;
  }

  /** The sums that the checker forms, one after the other, all fit an int. */
  ghost predicate SumsFit(numbers: seq<int>) {
    forall k :: 0 <= k <= |numbers| ==> 0 <= Sum(numbers[..k]) <= INT_MAX
  }

  /** No sum that the checker forms overflows an int exactly when the last one does not. */
  lemma {:induction false} SumsStayInRange(numbers: seq<int>)
    requires forall i :: 0 <= i < |numbers| ==> numbers[i] >= 0
    ensures SumsFit(numbers) <==> Sum(numbers) <= INT_MAX
  {
    assert numbers[..|numbers|] == numbers;
    forall k | 0 <= k <= |numbers| ensures 0 <= Sum(numbers[..k]) <= Sum(numbers) {
      PrefixSum(numbers, k);
    }
  }

  lemma {:induction false} PrefixSum(numbers: seq<int>, k: nat)
    requires k <= |numbers| && forall i :: 0 <= i < |numbers| ==> numbers[i] >= 0
    ensures 0 <= Sum(numbers[..k]) <= Sum(numbers)
    decreases |numbers|
  {
    if k < |numbers| {
      var front := numbers[..|numbers| - 1];
      PrefixSum(front, k);
      assert front[..k] == numbers[..k];
    } else {
      assert numbers[..k] == numbers;
      if numbers != [] {
        PrefixSum(numbers[..|numbers| - 1], |numbers| - 1);
        assert numbers[..|numbers| - 1][..|numbers| - 1] == numbers[..|numbers| - 1];
      }
    }
  }

  /** For a line of the producer this is so when twice the sum, and the falsification, fit. */
  lemma NoOverflow(pid: nat, digits: seq<int>, falsified: bool)
    requires AreDigits(digits)
    ensures var claimed := pid + Sum(digits) + if falsified then 1 else 0;
            var numbers := [pid as int] + digits + [claimed];
            SumsFit(numbers) <==> 2 * (pid + Sum(digits)) + (if falsified then 1 else 0) <= INT_MAX
  {
    DigitsSize(digits);
    hide SumsFit, Sum;
    var claimed := pid + Sum(digits) + if falsified then 1 else 0;
    SumsStayInRange([pid as int] + digits + [claimed]);
    SumConcat([pid as int] + digits, [claimed]);
    SumConcat([pid as int], digits);
    SumOfOne(pid);
    SumOfOne(claimed);
  }

  lemma SumOfOne(x: int)
    ensures Sum([x]) == x
  {
    assert [x][..0] == [];
  }
}

/** The printing and checking loops, on the 512-byte buffer. */
module ChecksumLoops {
  import opened Numerals
  import opened Descriptors
  import opened ChecksumText

  const BUFFER_SIZE: nat := 512

  /** The buffer holds exactly the C string `text`. */
  ghost predicate Holds(buffer: array<char>, text: string)
    reads buffer
  {
    |text| < buffer.Length && buffer[..|text|] == text && buffer[|text|] == '\0'
  }

  /** sprintf to where the text so far ends. */
  method SprintfAt(buffer: array<char>, offset: nat, text: string)
    requires offset + |text| < buffer.Length
    modifies buffer
    ensures buffer[..offset] == old(buffer[..offset])
    ensures buffer[offset..offset + |text|] == text && buffer[offset + |text|] == '\0'
  {
    Copy(buffer, offset, text + ['\0']);
    assert buffer[offset..offset + |text|] == text;
  }

  method Append(buffer: array<char>, ghost before: string, offset: nat, text: string)
    requires |before| == offset && offset + |text| < buffer.Length && buffer[..offset] == before
    modifies buffer
    ensures Holds(buffer, before + text)
  {
    SprintfAt(buffer, offset, text);
    assert buffer[..offset + |text|] == buffer[..offset] + buffer[offset..offset + |text|];
  }

  /** The do-while loop that counts the digits of the process id. */
  method LengthOf(pid: nat) returns (len: nat)
    ensures len == |Decimal(pid)|
  {
    len := 1;
    var n: nat := pid / 10;
    while n != 0
      invariant len + (if n == 0 then 0 else |Decimal(n)|) == |Decimal(pid)|
      decreases n
    {
      len := len + 1;
      n := n / 10;
    }
  }

  /** The loop over the digits, writing at computed offsets. */
  method PutDigits(buffer: array<char>, base: nat, ghost before: string, digits: seq<int>, pid: nat)
    returns (sum: nat)
    requires AreDigits(digits) && |before| == base && base + 2 * |digits| < buffer.Length
    requires Holds(buffer, before)
    modifies buffer
    ensures sum == pid + Sum(digits)
    ensures Holds(buffer, before + DigitsText(digits)) && |DigitsText(digits)| == 2 * |digits|
  {
    var i := 0;
    sum := pid;
    assert before + DigitsText(digits[..0]) == before;
    while i < |digits|
      invariant 0 <= i <= |digits|
      invariant |DigitsText(digits[..i])| == 2 * i && Holds(buffer, before + DigitsText(digits[..i]))
      invariant sum == pid + Sum(digits[..i])
    {
      var d := digits[i];
      assert digits[..i + 1][..i] == digits[..i];
      assert before + DigitsText(digits[..i]) + (Decimal(d) + [' '])
             == before + DigitsText(digits[..i + 1]);
      DigitsSize(digits[..i + 1]);
      Append(buffer, before + DigitsText(digits[..i]), base + i * 2, Decimal(d) + [' ']);
      sum := sum + d;
      i := i + 1;
    }
    assert digits[..i] == digits;
  }

  /** One round of the producer: offsets counted from the length of the process id. */
  method ProducerLine(buffer: array<char>, pid: nat, digits: seq<int>, falsify: bool)
    requires buffer.Length == BUFFER_SIZE && AreDigits(digits) && |digits| < 30 && pid <= INT_MAX
    modifies buffer
    ensures Sum(digits) >= 0
    ensures Holds(buffer, LineText(pid, digits, pid + Sum(digits) + if falsify then 1 else 0))
  {
    hide Decimal, Power10;
    Room(pid, digits, falsify);
    var len := LengthOf(pid);
    SprintfAt(buffer, 0, Decimal(pid) + [' ']);
    assert buffer[0..0 + |Decimal(pid) + [' ']|] == buffer[..|Decimal(pid)| + 1];
    var sum := PutDigits(buffer, len + 1, Decimal(pid) + [' '], digits, pid);
    if falsify { sum := sum + 1; }
    Append(buffer, Decimal(pid) + [' '] + DigitsText(digits), len + |digits| * 2 + 1, Decimal(sum) + ['\n']);
    assert Decimal(pid) + [' '] + DigitsText(digits) + (Decimal(sum) + ['\n']) == LineText(pid, digits, sum);
  }

  /** One round of the socket client: offsets counted from what sprintf returned. */
  method ClientLine(buffer: array<char>, pid: nat, digits: seq<int>, round: nat)
    requires buffer.Length == BUFFER_SIZE && AreDigits(digits) && |digits| < 30 && pid <= INT_MAX
    modifies buffer
    ensures Sum(digits) >= 0
    ensures Holds(buffer, LineText(pid, digits, pid + Sum(digits) + if round % 2 == 1 then 1 else 0))
  {
    hide Decimal, Power10;
    Room(pid, digits, round % 2 == 1);
    var first := Decimal(pid) + [' '];
    SprintfAt(buffer, 0, first);
    assert buffer[0..0 + |first|] == buffer[..|first|];
    var offset := |first|;
    var sum := PutDigits(buffer, offset, first, digits, pid);
    if round % 2 == 1 { sum := sum + 1; }
    Append(buffer, first + DigitsText(digits), offset + |digits| * 2, Decimal(sum) + ['\n']);
    assert first + DigitsText(digits) + (Decimal(sum) + ['\n']) == LineText(pid, digits, sum);
  }

  lemma Room(pid: nat, digits: seq<int>, falsify: bool)
    requires AreDigits(digits) && |digits| < 30 && pid <= INT_MAX
    ensures Sum(digits) >= 0 && |DigitsText(digits)| == 2 * |digits|
    ensures var sum := pid + Sum(digits) + if falsify then 1 else 0;
            |Decimal(pid)| + 1 + 2 * |digits| + |Decimal(sum)| + 1 < BUFFER_SIZE
  {
    DigitsSize(digits);
    LineFits(pid, digits, pid + Sum(digits) + if falsify then 1 else 0);
  }

  lemma NumbersStep(s: string)
    requires ScanInt(s).Match?
    ensures 0 < ScanInt(s).used <= |s|
    ensures Numbers(s) == [ScanInt(s).value] + Numbers(s[ScanInt(s).used..])
  {
    ScanAdvances(s);
    hide ScanInt;
  }

  lemma SumSnoc(done: seq<int>, v: int)
    ensures Sum(done + [v]) == Sum(done) + v
  {
    assert (done + [v])[..|done|] == done;
  }

  /** A sum over the numbers seen so far, one scan further. */
  lemma OneMore(s: string, offset: nat, done: seq<int>)
    requires offset <= |s| && Numbers(s) == done + Numbers(s[offset..]) && ScanInt(s[offset..]).Match?
    ensures var m := ScanInt(s[offset..]);
            && 0 < m.used <= |s| - offset
            && Numbers(s) == done + [m.value] + Numbers(s[offset + m.used..])
            && Sum(done + [m.value]) == Sum(done) + m.value
  {
    hide ScanInt, Numbers, Sum;
    var m := ScanInt(s[offset..]);
    NumbersStep(s[offset..]);
    SumSnoc(done, m.value);
    assert s[offset..][m.used..] == s[offset + m.used..];
    assert done + ([m.value] + Numbers(s[offset + m.used..])) == done + [m.value] + Numbers(s[offset + m.used..]);
  }

  /** The checker's loop over a text: `found` says whether any number was scanned;
      only then do `sum`, the sum of the others, and `current`, the last, have a value. */
  method Check(text: string) returns (found: bool, sum: int, current: int)
    ensures found <==> Numbers(text) != []
    ensures found ==> (sum == current <==> SumsUp(Numbers(text)))
    ensures found ==> current == Numbers(text)[|Numbers(text)| - 1] && sum == Sum(Numbers(text)) - current
  {
    hide ScanInt, Numbers, Sum;
    SumOfNothing();
    sum, current, found := 0, 0, false;
    var offset := 0;
    ghost var done: seq<int> := [];
    assert text[0..] == text;
    while ScanInt(text[offset..]).Match?
      invariant 0 <= offset <= |text|
      invariant Numbers(text) == done + Numbers(text[offset..])
      invariant sum == Sum(done) && (found <==> done != [])
      invariant found ==> current == done[|done| - 1]
      decreases |text| - offset
    {
      OneMore(text, offset, done);
      var m := ScanInt(text[offset..]);
      current, found := m.value, true;
      sum := sum + current;
      offset := offset + m.used;
      done := done + [current];
      if m.used <= 0 { break; }
    }
    NoneLeft(text[offset..]);
    assert done + [] == done;
    if found { LastApart(done); }
    sum := sum - current;
  }

  lemma SumOfNothing()
    ensures Sum([]) == 0
  {
  }

  lemma NoneLeft(s: string)
    ensures ScanInt(s).NoMatch? ==> Numbers(s) == []
  {
    hide ScanInt;
  }

  lemma LastApart(numbers: seq<int>)
    requires numbers != []
    ensures Sum(numbers) == Sum(numbers[..|numbers| - 1]) + numbers[|numbers| - 1]
  {
  }
}

/** The whole way of a checksum line: printed, sent in any chunks, read and checked. */
module ChecksumPipe {
  import opened Numerals
  import opened LineSpec
  import opened Descriptors
  import opened ByteReader
  import opened ChecksumText
  import opened ChecksumLoops

  /** One round of the consumer: clear the buffer, read a line, check it. */
  method ConsumerRound(d: Descriptor, buffer: array<char>) returns (ret: int, found: bool, accepted: bool)
    requires d.Valid() && buffer.Length == BUFFER_SIZE
    modifies d, buffer
    ensures d.Valid()
    ensures var r := ByteLine(old(d.Stream()), [], 512);
            && ret == r.ret && d.Stream() == r.rest
            && (ret >= 0 ==>
                  var numbers := Numbers(CString(r.line));
                  (found <==> numbers != []) && (found ==> (accepted <==> SumsUp(numbers))))
  {
    hide ByteLine, Numbers, SumsUp;
    Clear(buffer, BUFFER_SIZE);
    ghost var r := ByteLine(d.Stream(), [], BUFFER_SIZE);
    var errno;
    ret, errno := ReadLineSelect(d, buffer, BUFFER_SIZE);
    found, accepted := false, false;
    if ret >= 0 {
      assert buffer[..] == r.line + Zeros(BUFFER_SIZE - |r.line|);
      CStringBeforeZeros(r.line, BUFFER_SIZE - |r.line|);
      var sum, current;
      found, sum, current := Check(CString(buffer[..]));
      accepted := sum == current;
    }
  }

  predicate Plain(s: string) { forall i :: 0 <= i < |s| ==> s[i] != '\0' && s[i] != '\n' }

  lemma DecimalPlain(n: nat)
    ensures Plain(Decimal(n))
  {
    DecimalDigits(n);
  }

  lemma {:induction false} DigitsPlain(digits: seq<int>)
    requires AreDigits(digits)
    ensures Plain(DigitsText(digits))
    decreases |digits|
  {
    hide Decimal;
    if digits == [] {
    } else {
      DigitsPlain(digits[..|digits| - 1]);
      DecimalPlain(digits[|digits| - 1]);
    }
  }

  /** Whatever chunks a producer's line arrives in, as long as no timeout falls into
      it: the consumer reads exactly that line and accepts it exactly when the
      producer did not falsify the sum. */
  lemma LineThroughPipe(pid: nat, digits: seq<int>, falsified: bool, rest: seq<Tick>)
    requires AreDigits(digits) && |digits| < 30 && pid <= INT_MAX
    ensures Sum(digits) >= 0
    ensures var s := LineText(pid, digits, pid + Sum(digits) + if falsified then 1 else 0);
            && ByteLine(Ticks(s) + rest, [], BUFFER_SIZE) == Whole(|s|, OK, s, rest)
            && FastLine(Ticks(s) + rest, BUFFER_SIZE, 0) == Whole(|s|, OK, s, rest)
            && CString(s) == s && Numbers(s) != [] && (SumsUp(Numbers(s)) <==> !falsified)
  {
    hide Decimal, DigitsText, Numbers, SumsUp, ByteLine, FastLine, CString, Power10, Sum, AreDigits, Ticks;
    DigitsSize(digits);
    var claimed := pid + Sum(digits) + if falsified then 1 else 0;
    var s := LineText(pid, digits, claimed);
    LineFits(pid, digits, claimed);
    AcceptedExactlyWhenRight(pid, digits, claimed);
    DecimalPlain(pid);
    DecimalPlain(claimed);
    DigitsPlain(digits);
    var body := Decimal(pid) + [' '] + DigitsText(digits) + Decimal(claimed);
    PlainParts(Decimal(pid), DigitsText(digits), Decimal(claimed));
    assert s == body + ['\n'];
    ReadWhole(body, rest);
    NoNulInside(body + ['\n']);
  }

  lemma PlainParts(a: string, b: string, c: string)
    requires Plain(a) && Plain(b) && Plain(c)
    ensures Plain(a + [' '] + b + c)
  {
  }

  lemma ReadWhole(body: string, rest: seq<Tick>)
    requires Plain(body) && |body| + 1 < BUFFER_SIZE
    ensures var s := body + ['\n'];
            && ByteLine(Ticks(s) + rest, [], BUFFER_SIZE) == Whole(|s|, OK, s, rest)
            && FastLine(Ticks(s) + rest, BUFFER_SIZE, 0) == Whole(|s|, OK, s, rest)
  {
    var s := body + ['\n'];
    var t := Ticks(s) + rest;
    LineTo(body, rest);
    hide Line, ByteLine;
    ByteLineIs(t, [], BUFFER_SIZE);
    assert t[|s|..] == rest && [] + s == s;
  }

  lemma {:induction false} NoNulInside(s: string)
    requires forall i :: 0 <= i < |s| ==> s[i] != '\0'
    ensures CString(s) == s
    decreases |s|
  {
    if s == [] {
    } else {
      NoNulInside(s[1..]);
    }
  }
}
