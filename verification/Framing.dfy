/** The two ends of the TCP stream: writeDataToTcp frames messages, and the scanner of readDataFromTcp cuts the
    stream into frames again, however it is divided into reads. */
module Framing {
  import opened Packages

  // ---------- the writing end ----------

  /** The package that writeDataToTcp sends for a message. */
  function Package(msg: Bytes): Fields {
    Fields(VERSION_CONTENT, PackageLength(msg), msg)
  }

  function Frame(msg: Bytes): Bytes {
    Packed(Package(msg))
  }

  function Frames(msgs: seq<Bytes>): Bytes {
    if msgs == [] then [] else Frame(msgs[0]) + Frames(msgs[1..])
  }

  /** The write loop: one package, reused for every message. */
  method WriteDataToTcp(broadcast: seq<Bytes>, conn: Writer)
    modifies conn
    ensures conn.written == old(conn.written) + Frames(broadcast)
  {
    hide Packed, PackageLength;
    var pack := new StickPackage(VERSION_CONTENT);
    assert broadcast[..0] == [];
    for i := 0 to |broadcast|
      invariant pack.version == VERSION_CONTENT && fresh(pack)
      invariant conn.written == old(conn.written) + Frames(broadcast[..i])
    {
      pack.msg := broadcast[i];
      var length := pack.GetPackageLength();
      pack.length := length;
      pack.Pack(conn);
      assert broadcast[..i + 1] == broadcast[..i] + [broadcast[i]];
      FramesAppend(broadcast[..i], [broadcast[i]]);
      OneFrame(broadcast[i]);
    }
    assert broadcast[..|broadcast|] == broadcast;
  }

  lemma OneFrame(msg: Bytes)
    ensures Frames([msg]) == Frame(msg)
  {
    assert [msg][1..] == [];
  }

  /** A frame byte by byte: the letter v and the digit 1, the length of the whole frame with the high byte first, and
      the message. */
  lemma FrameSpelledOut(msg: Bytes)
    requires |msg| <= MAX_BODY
    ensures var n := 4 + |msg|; n / 0x100 < 0x80 && Frame(msg) == [118, 49, n / 0x100, n % 0x100] + msg
  {
    LengthIsExact(msg);
    assert PackageLength(msg) == 4 + |msg|;
    hide PackageLength;
  }

  lemma {:induction false} FramesAppend(a: seq<Bytes>, b: seq<Bytes>)
    ensures Frames(a + b) == Frames(a) + Frames(b)
  {
    if a == [] {
      assert a + b == b;
    } else {
      FramesAppend(a[1..], b);
      assert (a + b)[1..] == a[1..] + b && (a + b)[0] == a[0];
      hide Frame;
    }
  }

  // ---------- the reading end ----------

  /** What the split function answers: wait for more data; a token of the first bytes; or a slice
      with a negative bound, which panics. */
  datatype Split = More | Token(size: nat) | Crash

  /** The split function; the scanner does not call it before the end of the stream with no data. */
  function SplitPackage(data: Bytes, atEOF: bool): (r: Split)
    requires !atEOF ==> data != []
    ensures r.Token? ==> r.size <= |data|
  {
    if !atEOF && data[0] == 118 && |data| > TCP_HEADER_LENGTH then
      var packSumLength := FromBigEndian(data[2], data[3]);
      if packSumLength < 0 then Crash
      else if packSumLength <= |data| then Token(packSumLength)
      else More
    else More
  }

  /** The packages found so far, the bytes that wait for more, and whether the reader is still running. */
  datatype Reading = Reading(found: seq<Fields>, rest: Bytes, running: bool)

  const NEW_PACKAGE: Fields := Fields([0, 0], 0, [])
  const START: Reading := Reading([], [], true)

  /** The scan loop on all the data that is there: split off a token and unpack it, until more is needed.
      A token that is too short for a header makes Unpack panic. */
  function Drain(data: Bytes): Reading
    decreases |data|
  {
    if data == [] then START
    else match SplitPackage(data, false)
      case More => Reading([], data, true)
      case Crash => Reading([], [], false)
      case Token(size) =>
        var u := Unpacked(NEW_PACKAGE, data[..size]);
        if size < TCP_HEADER_LENGTH then Reading([], [], false) else Prepend(u.fields, Drain(data[size..]))
  }

  function Prepend(p: Fields, r: Reading): Reading { r.(found := [p] + r.found) }

  /** A token shorter than a header is exactly one on which Unpack does not succeed. */
  lemma UnpackSucceedsExactly(data: Bytes)
    requires data != [] && SplitPackage(data, false).Token?
    ensures var size := SplitPackage(data, false).size;
            && (size >= TCP_HEADER_LENGTH ==>
                    Unpacked(NEW_PACKAGE, data[..size]) == Unpacking(Fields(data[..2], size, data[4..size]), Done))
            && (size < TCP_HEADER_LENGTH ==> Unpacked(NEW_PACKAGE, data[..size]).status == Panicked)
  {
    var size := SplitPackage(data, false).size;
    if size >= TCP_HEADER_LENGTH {
      assert data[..size][..2] == data[..2] && data[..size][4..] == data[4..size];
    }
  }

  /** One more read of the stream. */
  function Feed(r: Reading, chunk: Bytes): Reading {
    if !r.running then r
    else var more := Drain(r.rest + chunk); more.(found := r.found + more.found)
  }

  function FeedAll(chunks: seq<Bytes>): Reading {
    if chunks == [] then START else Feed(FeedAll(chunks[..|chunks| - 1]), chunks[|chunks| - 1])
  }

  function Concat(chunks: seq<Bytes>): Bytes {
    if chunks == [] then [] else Concat(chunks[..|chunks| - 1]) + chunks[|chunks| - 1]
  }

  /** More data does not change a split that did not ask for more. */
  lemma SplitIsStable(a: Bytes, b: Bytes)
    requires a != [] && !SplitPackage(a, false).More?
    ensures SplitPackage(a + b, false) == SplitPackage(a, false)
  {
    assert (a + b)[..4] == a[..4];
  }

  lemma DrainToken(data: Bytes)
    requires data != [] && SplitPackage(data, false).Token? && SplitPackage(data, false).size >= TCP_HEADER_LENGTH
    ensures var size := SplitPackage(data, false).size;
            Drain(data) == Prepend(Unpacked(NEW_PACKAGE, data[..size]).fields, Drain(data[size..]))
  {
  }

  lemma DrainStops(data: Bytes)
    requires data == [] || !SplitPackage(data, false).Token? || SplitPackage(data, false).size < TCP_HEADER_LENGTH
    ensures Drain(data) == if data == [] || SplitPackage(data, false).More? then Reading([], data, true)
                           else Reading([], [], false)
  {
  }

  lemma FeedPrepend(p: Fields, r: Reading, b: Bytes)
    ensures Feed(Prepend(p, r), b) == Prepend(p, Feed(r, b))
  {
    hide Drain;
    assert forall f: seq<Fields> :: ([p] + r.found) + f == [p] + (r.found + f);
  }

  /** For every stream: what has been read before more arrives does not have to be read again. */
  lemma {:induction false} DrainResumes(a: Bytes, b: Bytes)
    ensures Drain(a + b) == Feed(Drain(a), b)
    decreases |a|
  {
    hide SplitPackage, Unpacked;
    if a == [] {
      assert a + b == b;
    } else if !SplitPackage(a, false).More? {
      SplitIsStable(a, b);
      if SplitPackage(a, false).Token? {
        var size := SplitPackage(a, false).size;
        if size >= TCP_HEADER_LENGTH {
          DrainResumes(a[size..], b);
          DrainToken(a);
          DrainToken(a + b);
          FeedPrepend(Unpacked(NEW_PACKAGE, a[..size]).fields, Drain(a[size..]), b);
          assert (a + b)[..size] == a[..size] && (a + b)[size..] == a[size..] + b;
          hide Drain, Feed, Prepend;
        }
      }
    }
  }

  /** For every stream and every division into reads: reading it in pieces is reading it at once. */
  lemma {:induction false} ChunksDoNotMatter(chunks: seq<Bytes>)
    ensures FeedAll(chunks) == Drain(Concat(chunks))
  {
    if chunks != [] {
      var before, last := chunks[..|chunks| - 1], chunks[|chunks| - 1];
      ChunksDoNotMatter(before);
      DrainResumes(Concat(before), last);
      hide Drain, Feed;
    }
  }

  // ---------- what the reader makes of the packages ----------

  /** The body of a package is a request that is served, is no JSON, or is a request that ends the connection. */
  datatype Outcome = Served | Unreadable | Refused

  /** So many unreadable bodies end the connection. */
  const SCAN_TIMES: nat := 3

  /** How many unreadable bodies the reader still puts up with after the first k packages. */
  function Patience(outcome: nat -> Outcome, k: nat): nat {
    if k == 0 then SCAN_TIMES
    else
      var left := Patience(outcome, k - 1);
      match outcome(k - 1)
      case Served => left
      case Unreadable => if left > 0 then left - 1 else 0
      case Refused => 0
  }

  function Unreadables(outcome: nat -> Outcome, k: nat): nat {
    if k == 0 then 0 else Unreadables(outcome, k - 1) + if outcome(k - 1).Unreadable? then 1 else 0
  }

  /** The reader gives up exactly at the first refused request and at the third unreadable body. */
  lemma {:induction false} GivesUpExactly(outcome: nat -> Outcome, k: nat)
    ensures Patience(outcome, k) == 0
       <==> Unreadables(outcome, k) >= 3 || exists i :: 0 <= i < k && outcome(i).Refused?
    ensures Patience(outcome, k) > 0 ==> Patience(outcome, k) == 3 - Unreadables(outcome, k)
  {
    if k > 0 {
      GivesUpExactly(outcome, k - 1);
    }
  }

  /** How many of n packages are looked at, when k have been before. */
  function Looked(outcome: nat -> Outcome, k: nat, n: nat): (looked: nat)
    ensures looked <= n
    decreases n
  {
    if n == 0 || Patience(outcome, k) == 0 then 0 else 1 + Looked(outcome, k + 1, n - 1)
  }

  lemma {:induction false} LookedFurther(outcome: nat -> Outcome, k: nat, n: nat, m: nat)
    ensures var looked := Looked(outcome, k, n);
            && Looked(outcome, k, n + m) == looked + (if looked < n then 0 else Looked(outcome, k + n, m))
            && (looked < n ==> Patience(outcome, k + looked) == 0)
    decreases n
  {
    if n > 0 && Patience(outcome, k) > 0 {
      LookedFurther(outcome, k + 1, n - 1, m);
    }
  }

  lemma LookedOne(outcome: nat -> Outcome, k: nat, n: nat)
    ensures Looked(outcome, k, n)
         == if n == 0 || Patience(outcome, k) == 0 then 0 else 1 + Looked(outcome, k + 1, n - 1)
  {
  }

  /** What the reader has looked at when it would have found r; it runs on while it is patient. */
  predicate Looks(outcome: nat -> Outcome, k: nat, r: Reading, found: seq<Fields>, rest: Bytes, running: bool) {
    && found == r.found[..Looked(outcome, k, |r.found|)]
    && (running <==> r.running && Patience(outcome, k + |found|) > 0)
    && (running ==> rest == r.rest && found == r.found)
  }

  function Behind(found: seq<Fields>, r: Reading): Reading { r.(found := found + r.found) }

  lemma BehindOneMore(found: seq<Fields>, p: Fields, r: Reading)
    ensures Behind(found, Prepend(p, r)) == Behind(found + [p], r) && |Prepend(p, r).found| == 1 + |r.found|
  {
    assert (found + [p]) + r.found == found + ([p] + r.found);
  }

  /** The scan loop on the data of the scanner's buffer, when k packages have been looked at before. */
  method Scan(data: Bytes, outcome: nat -> Outcome, k: nat) returns (found: seq<Fields>, rest: Bytes, running: bool)
    requires Patience(outcome, k) > 0
    ensures Looks(outcome, k, Drain(data), found, rest, running)
  {
    hide Unpacked, Patience, Looked, Drain, SplitPackage, Prepend;
    found, rest, running := [], data, true;
    assert [] + Drain(data).found == Drain(data).found;
    while rest != [] && !SplitPackage(rest, false).More?
      invariant running && Drain(data) == Behind(found, Drain(rest))
      invariant Patience(outcome, k + |found|) > 0
      invariant Looked(outcome, k, |Drain(data).found|)
             == |found| + Looked(outcome, k + |found|, |Drain(rest).found|)
      decreases |rest|
    {
      LookedOne(outcome, k + |found|, |Drain(rest).found|);
      match SplitPackage(rest, false)
      case Crash =>
        DrainStops(rest);
        return found, [], false;
      case Token(size) =>
        UnpackSucceedsExactly(rest);
        var scannedPack := new StickPackage([0, 0]);
        var status := scannedPack.Unpack(rest[..size]);
        if status == Panicked {
          DrainStops(rest);
          return found, [], false;
        }
        DrainToken(rest);
        BehindOneMore(found, scannedPack.Contents(), Drain(rest[size..]));
        found, rest := found + [scannedPack.Contents()], rest[size..];
        if Patience(outcome, k + |found|) == 0 {
          LookedOne(outcome, k + |found|, |Drain(rest).found|);
          return found, [], false;
        }
    }
    DrainStops(rest);
    LookedOne(outcome, k + |found|, 0);
  }

  /** The reader of one connection: reads as the connection delivers them, and the scan loop after each. It looks at
      the packages of the stream in order, all of them unless it gives up. */
  method ReadDataFromTcp(deliveries: seq<Bytes>, outcome: nat -> Outcome)
    returns (found: seq<Fields>, rest: Bytes, running: bool)
    ensures Looks(outcome, 0, Drain(Concat(deliveries)), found, rest, running)
  {
    assert deliveries[..0] == [] && Patience(outcome, 0) == SCAN_TIMES;
    hide Patience, Drain, Looks;
    found, rest, running := [], [], true;
    LooksAtStart(outcome);
    for i := 0 to |deliveries|
      invariant Looks(outcome, 0, FeedAll(deliveries[..i]), found, rest, running)
      invariant running ==> Patience(outcome, |found|) > 0
    {
      assert deliveries[..i + 1][..i] == deliveries[..i];
      ghost var r := FeedAll(deliveries[..i]);
      if running {
        var packages, more, on := Scan(rest + deliveries[i], outcome, |found|);
        LooksOn(outcome, r, deliveries[i], found, rest, packages, more, on);
        found, rest, running := found + packages, more, on;
      } else {
        LooksNoMore(outcome, r, deliveries[i], found, rest);
      }
    }
    assert deliveries[..|deliveries|] == deliveries;
    ChunksDoNotMatter(deliveries);
  }

  lemma LooksAtStart(outcome: nat -> Outcome)
    ensures Looks(outcome, 0, START, [], [], true)
  {
  }

  lemma LooksOn(outcome: nat -> Outcome, r: Reading, chunk: Bytes, found: seq<Fields>, rest: Bytes,
                packages: seq<Fields>, more: Bytes, on: bool)
    requires Looks(outcome, 0, r, found, rest, true)
    requires Looks(outcome, |found|, Drain(rest + chunk), packages, more, on)
    ensures Looks(outcome, 0, Feed(r, chunk), found + packages, more, on)
    ensures on ==> Patience(outcome, |found + packages|) > 0
  {
    hide Drain, Looked, Patience;
    LookedFurther(outcome, 0, |r.found|, |Drain(r.rest + chunk).found|);
    assert found == r.found;
  }

  lemma LooksNoMore(outcome: nat -> Outcome, r: Reading, chunk: Bytes, found: seq<Fields>, rest: Bytes)
    requires Looks(outcome, 0, r, found, rest, false)
    ensures Looks(outcome, 0, Feed(r, chunk), found, rest, false)
  {
    if r.running {
      var more := |Drain(r.rest + chunk).found|;
      hide Drain, Patience;
      LookedFurther(outcome, 0, |r.found|, more);
      LookedOne(outcome, |r.found|, more);
      hide Looked;
    }
  }

  // ---------- both ends ----------

  function PackagesOf(msgs: seq<Bytes>): seq<Fields> {
    if msgs == [] then [] else [Package(msgs[0])] + PackagesOf(msgs[1..])
  }

  predicate Fit(msgs: seq<Bytes>) {
    forall i | 0 <= i < |msgs| :: |msgs[i]| <= MAX_BODY
  }

  lemma FrameParts(msg: Bytes, tail: Bytes)
    ensures var data := Frame(msg) + tail;
            && |Frame(msg)| == 4 + |msg|
            && data[..2] == VERSION_CONTENT && data[0] == 118
            && FromBigEndian(data[2], data[3]) == PackageLength(msg)
            && data[4..4 + |msg|] == msg && data[4 + |msg|..] == tail
  {
    BigEndianRoundTrip(PackageLength(msg));
    var data := Frame(msg) + tail;
    assert data[2] == BigEndian(PackageLength(msg))[0] && data[3] == BigEndian(PackageLength(msg))[1];
    hide BigEndian, PackageLength;
  }

  /** A frame of a message that fits is cut off and restored, unless it is an empty message and nothing follows. */
  lemma FrameIsRead(msg: Bytes, tail: Bytes)
    requires |msg| <= MAX_BODY && (msg != [] || tail != [])
    ensures Drain(Frame(msg) + tail) == Prepend(Package(msg), Drain(tail))
  {
    hide Drain, Prepend, Unpacked;
    FrameParts(msg, tail);
    LengthIsExact(msg);
    var data := Frame(msg) + tail;
    hide Frame, PackageLength, FromBigEndian;
    assert SplitPackage(data, false) == Token(4 + |msg|);
    UnpackSucceedsExactly(data);
    DrainToken(data);
  }

  lemma EmptyFrameWaits()
    ensures Drain(Frame([])) == Reading([], Frame([]), true)
  {
  }

  /** A frame of a message that does not fit stops the reader or is cut off too short. */
  lemma LongFrameIsLost(msg: Bytes, tail: Bytes)
    requires |msg| > MAX_BODY
    ensures var r := Drain(Frame(msg) + tail); !r.running || (r.found != [] && |r.found[0].msg| < |msg|)
  {
    hide Drain, Prepend, Unpacked;
    FrameParts(msg, tail);
    var data := Frame(msg) + tail;
    hide Frame, PackageLength;
    if SplitPackage(data, false).Token? {
      UnpackSucceedsExactly(data);
      if SplitPackage(data, false).size >= TCP_HEADER_LENGTH {
        DrainToken(data);
        LongFrameIsShortened(msg, tail);
      } else {
        ShortTokenStops(data);
      }
    } else {
      CrashStops(data);
    }
  }

  lemma ShortTokenStops(data: Bytes)
    requires data != [] && SplitPackage(data, false).Token? && SplitPackage(data, false).size < TCP_HEADER_LENGTH
    ensures !Drain(data).running
  {
  }

  lemma CrashStops(data: Bytes)
    requires data != [] && SplitPackage(data, false).Crash?
    ensures !Drain(data).running
  {
  }

  lemma LongFrameIsShortened(msg: Bytes, tail: Bytes)
    requires |msg| > MAX_BODY
    requires SplitPackage(Frame(msg) + tail, false).Token?
        && SplitPackage(Frame(msg) + tail, false).size >= TCP_HEADER_LENGTH
    ensures var r := Drain(Frame(msg) + tail); r.found != [] && |r.found[0].msg| < |msg|
  {
    var data := Frame(msg) + tail;
    hide Drain, Unpacked, Frame;
    DrainToken(data);
    UnpackSucceedsExactly(data);
  }

  /** What arrives is what was sent exactly if every message has at most 32763 bytes and the last is not empty. */
  lemma {:induction false} LosslessExactly(msgs: seq<Bytes>)
    ensures Drain(Frames(msgs)) == Reading(PackagesOf(msgs), [], true)
       <==> Fit(msgs) && (msgs == [] || msgs[|msgs| - 1] != [])
  {
    if msgs != [] {
      var msg, others := msgs[0], msgs[1..];
      LosslessExactly(others);
      assert Fit(msgs) <==> |msg| <= MAX_BODY && Fit(others);
      assert PackagesOf(msgs)[0].msg == msg;
      hide Drain, Frame;
      if |msg| > MAX_BODY {
        LongFrameIsLost(msg, Frames(others));
      } else if msg != [] || Frames(others) != [] {
        FrameIsRead(msg, Frames(others));
        FramesEmptyExactly(others);
        hide Frames, Package, Fit;
        PrependIsLossless(Package(msg), Drain(Frames(others)), PackagesOf(others));
      } else {
        FramesEmptyExactly(others);
        EmptyFrameWaits();
        assert Frames(msgs) == Frame([]);
      }
    }
  }

  lemma PrependIsLossless(p: Fields, r: Reading, ps: seq<Fields>)
    ensures Prepend(p, r) == Reading([p] + ps, [], true) <==> r == Reading(ps, [], true)
  {
    if [p] + r.found == [p] + ps {
      assert ([p] + r.found)[1..] == r.found && ([p] + ps)[1..] == ps;
    }
  }

  lemma FramesEmptyExactly(msgs: seq<Bytes>)
    ensures Frames(msgs) == [] <==> msgs == []
  {
  }

  /** The same through the two ends, for every division of the stream into reads. */
  lemma TransferIsLosslessExactly(msgs: seq<Bytes>, deliveries: seq<Bytes>)
    requires Concat(deliveries) == Frames(msgs)
    ensures FeedAll(deliveries) == Reading(PackagesOf(msgs), [], true)
       <==> Fit(msgs) && (msgs == [] || msgs[|msgs| - 1] != [])
  {
    ChunksDoNotMatter(deliveries);
    LosslessExactly(msgs);
    hide Drain, FeedAll, Fit, PackagesOf;
  }

  // ---------- after every read ----------

  /** After k messages have been found, what is left is a proper part of the next frame. */
  predicate Progress(msgs: seq<Bytes>, r: Reading) {
    && r.running
    && |r.found| <= |msgs|
    && r.found == PackagesOf(msgs[..|r.found|])
    && if |r.found| == |msgs| then r.rest == [] else r.rest < Frame(msgs[|r.found|])
  }

  lemma PartialFrameWaits(msg: Bytes, k: nat)
    requires 0 < |msg| <= MAX_BODY && k < |Frame(msg)|
    ensures Drain(Frame(msg)[..k]) == Reading([], Frame(msg)[..k], true)
  {
    FrameParts(msg, []);
    LengthIsExact(msg);
    assert Frame(msg) + [] == Frame(msg);
    hide Frame, PackageLength, FromBigEndian;
    if k > 0 {
      assert Frame(msg)[..k] != [];
      assert SplitPackage(Frame(msg)[..k], false).More?;
    }
  }

  lemma PackagesOfStep(msgs: seq<Bytes>, n: nat)
    requires 0 < n <= |msgs|
    ensures PackagesOf(msgs[..n]) == [Package(msgs[0])] + PackagesOf(msgs[1..][..n - 1])
  {
    assert msgs[..n][1..] == msgs[1..][..n - 1] && msgs[..n][0] == msgs[0];
  }

  lemma ProgressStep(msgs: seq<Bytes>, r: Reading)
    requires msgs != [] && Progress(msgs[1..], r)
    ensures Progress(msgs, Prepend(Package(msgs[0]), r))
  {
    PackagesOfStep(msgs, |r.found| + 1);
    hide PackagesOf, Package, Frame;
  }

  lemma {:induction false} PrefixProgress(msgs: seq<Bytes>, k: nat)
    requires Fit(msgs) && (forall i | 0 <= i < |msgs| :: msgs[i] != []) && k <= |Frames(msgs)|
    ensures Progress(msgs, Drain(Frames(msgs)[..k]))
  {
    if msgs != [] {
      var msg, others := msgs[0], msgs[1..];
      assert msgs[..0] == [];
      hide Drain, Package, Frame;
      if k < |Frame(msg)| {
        PartialFrameWaits(msg, k);
        assert Frames(msgs)[..k] == Frame(msg)[..k];
      } else {
        var m := k - |Frame(msg)|;
        assert Frames(msgs)[..k] == Frame(msg) + Frames(others)[..m];
        FrameIsRead(msg, Frames(others)[..m]);
        PrefixProgress(others, m);
        hide Progress, Frames;
        ProgressStep(msgs, Drain(Frames(others)[..m]));
      }
    }
  }

  /** After every read of the frames of messages of 1 to 32763 bytes: what has been found is the messages so far,
      and what is left is a proper part of the next frame. */
  lemma ProgressAfterEveryRead(msgs: seq<Bytes>, deliveries: seq<Bytes>)
    requires Fit(msgs) && (forall i | 0 <= i < |msgs| :: msgs[i] != [])
    requires Concat(deliveries) <= Frames(msgs)
    ensures Progress(msgs, FeedAll(deliveries))
  {
    hide Drain, FeedAll, Progress, Frames, Concat, Fit;
    ChunksDoNotMatter(deliveries);
    PrefixProgress(msgs, |Concat(deliveries)|);
    assert Frames(msgs)[..|Concat(deliveries)|] == Concat(deliveries);
  }

  // ---------- streams of any sender ----------

  function Wire(ps: seq<Fields>): Bytes {
    if ps == [] then [] else Packed(ps[0]) + Wire(ps[1..])
  }

  /** No package can be cut off: the data does not start with a v, or is too short. */
  predicate Waits(data: Bytes) {
    data == [] || data[0] != 118 || |data| <= 4 || FromBigEndian(data[2], data[3]) > |data|
  }

  /** The length is less than that of a header. */
  predicate Breaks(data: Bytes) {
    |data| > 4 && data[0] == 118 && FromBigEndian(data[2], data[3]) < 4
  }

  predicate WellFormed(p: Fields) {
    |p.version| == 2 && p.version[0] == 118 && p.length == 4 + |p.msg|
  }

  /** The packages found are the data, as far as they reach; and what is behind them waits, or has broken the reader. */
  ghost predicate Faithful(data: Bytes, r: Reading) {
    && Wire(r.found) <= data && (forall p | p in r.found :: WellFormed(p))
    && (r.running ==> r.rest == data[|Wire(r.found)|..] && Waits(r.rest))
    && (!r.running ==> Breaks(data[|Wire(r.found)|..]))
  }

  lemma BytesReadBack(hi: Byte, lo: Byte)
    ensures BigEndian(FromBigEndian(hi, lo)) == [hi, lo]
  {
    var n := 0x100 * hi + lo;
    var m := FromBigEndian(hi, lo);
    assert m == n || m == n - 0x1_0000;
    assert m % 0x1_0000 == n && n / 0x100 == hi;
    assert m == 0x100 * (if m == n then hi else hi - 0x100) + lo;
  }

  lemma PackedBack(data: Bytes, size: nat)
    requires 4 <= size <= |data| && FromBigEndian(data[2], data[3]) == size
    ensures Packed(Fields(data[..2], size, data[4..size])) == data[..size]
  {
    BytesReadBack(data[2], data[3]);
    hide FromBigEndian, BigEndian;
    assert data[..size] == data[..2] + [data[2], data[3]] + data[4..size];
  }

  /** Of every stream: the packages found are the stream, up to where no package can be cut off or a length breaks the
      reader; and each starts with a v and says its length. */
  lemma {:induction false} FoundIsStream(data: Bytes)
    ensures Faithful(data, Drain(data))
    decreases |data|
  {
    if data != [] && SplitPackage(data, false).Token? && SplitPackage(data, false).size >= TCP_HEADER_LENGTH {
      var size := SplitPackage(data, false).size;
      FoundIsStream(data[size..]);
      UnpackSucceedsExactly(data);
      DrainToken(data);
      PackedBack(data, size);
      hide Unpacked;
      OneMore(data, size, Drain(data[size..]));
      hide *;
    } else {
      DrainStops(data);
      hide Drain;
    }
  }

  lemma OneMore(data: Bytes, size: nat, r: Reading)
    requires 4 <= size <= |data| && data[0] == 118 && Faithful(data[size..], r)
    requires Packed(Fields(data[..2], size, data[4..size])) == data[..size]
    ensures Faithful(data, Prepend(Fields(data[..2], size, data[4..size]), r))
  {
    hide Packed, Waits, Breaks;
    var p := Fields(data[..2], size, data[4..size]);
    assert ([p] + r.found)[1..] == r.found;
    assert data == data[..size] + data[size..];
    assert data[size..][|Wire(r.found)|..] == data[size + |Wire(r.found)|..];
  }

  /** Once what is left does not start with a v, nothing is found any more, whatever follows. */
  lemma StrayStopsForGood(r: Reading, chunk: Bytes)
    requires r.running && r.rest != [] && r.rest[0] != 118
    ensures Feed(r, chunk) == Reading(r.found, r.rest + chunk, true)
  {
    DrainStops(r.rest + chunk);
    hide Drain;
    assert r.found + [] == r.found;
  }

  /** No package is found in a stream whose first byte is not a v, whatever follows, and however it is divided. */
  lemma NothingWithoutVersion(chunks: seq<Bytes>)
    requires Concat(chunks) != [] && Concat(chunks)[0] != 118
    ensures FeedAll(chunks) == Reading([], Concat(chunks), true)
  {
    ChunksDoNotMatter(chunks);
    DrainStops(Concat(chunks));
    hide Drain, FeedAll, Concat;
  }
}
