/** Resumable downloads: the retry loop of one file, and a list of files one after another,
    against a server that may break off, refuse or ignore ranges at any time. */
module Download {
  import opened Wrappers

  type Byte = b: int | 0 <= b < 256
  type Path = string

  const MAX_RETRIES: nat := 10

  function PartialPath(destination: Path): Path {
    destination + ".part"
  }

  lemma PartialPathInjective(a: Path, b: Path)
    ensures PartialPath(a) == PartialPath(b) <==> a == b
    ensures PartialPath(a) == a + ".part" && PartialPath(a) != a
  {
    assert a == PartialPath(a)[..|PartialPath(a)| - 5];
    assert b == PartialPath(b)[..|PartialPath(b)| - 5];
  }

  /** What comes back for a GET. */
  datatype Reply =
    | ConnectionError
    | Refused(code: nat)
    | RangeNotSatisfiable
    | Whole(length: Option<nat>, chunks: seq<seq<Byte>>, clean: bool)               // 200
    // 206, from the range's start up to `upTo`
    | Part(total: Option<nat>, upTo: nat, chunks: seq<seq<Byte>>, clean: bool)

  function Concat(chunks: seq<seq<Byte>>): seq<Byte> {
    if chunks == [] then [] else Concat(chunks[..|chunks| - 1]) + chunks[|chunks| - 1]
  }

  predicate IsTransient(code: nat) {
    500 <= code < 600 || code == 408 || code == 429
  }

  /** A reply of a server that tells the truth about `remote`: a length it states is the right
      one, the bytes it sends are the ones asked for, a body that ends cleanly is complete, and
      206 and 416 answer range requests only (sections 14.2, 15.3.7 and 15.5.17 of RFC 9110).
      A 206 may stop before the end of the requested range, as section 15.3.7 allows. */
  predicate Honest(remote: seq<Byte>, range: Option<nat>, reply: Reply) {
    match reply
    case ConnectionError => true
    case Refused(code) => !(200 <= code < 300) && code != 416
    case RangeNotSatisfiable => range.Some?
    case Whole(length, chunks, clean) =>
      && (length.Some? ==> length.value == |remote|)
      && Concat(chunks) <= remote
      && (clean ==> Concat(chunks) == remote)
    case Part(total, upTo, chunks, clean) =>
      && range.Some? && range.value < upTo <= |remote|
      && (total.Some? ==> total.value == |remote|)
      && Concat(chunks) <= remote[range.value..upTo]
      && (clean ==> Concat(chunks) == remote[range.value..upTo])
  }

  function SaturatingSub(a: nat, b: nat): nat {
    if a < b then 0 else a - b
  }

  /** The bytes counted for a file before it is downloaded: its own, or its partial file's. */
  function Counted(fs: map<Path, seq<Byte>>, destination: Path): nat {
    if destination in fs then |fs[destination]|
    else if PartialPath(destination) in fs then |fs[PartialPath(destination)]|
    else 0
  }

  /** A partial file left behind is a prefix of the remote content, or longer than it. */
  predicate Resumable(fs: map<Path, seq<Byte>>, destination: Path, remote: seq<Byte>) {
    CanResume(fs, PartialPath(destination), remote)
  }

  predicate CanResume(fs: map<Path, seq<Byte>>, part: Path, remote: seq<Byte>) {
    part in fs ==> fs[part] <= remote || |fs[part]| > |remote|
  }

  /** The bytes of a partial file. */
  function Kept(fs: map<Path, seq<Byte>>, part: Path): nat {
    if part in fs then |fs[part]| else 0
  }

  /** What the loop knows of the partial file at its head. */
  predicate PartialHolds(fs: map<Path, seq<Byte>>, part: Path, fileBytes: nat, remote: seq<Byte>) {
    fileBytes > 0 ==> part in fs && |fs[part]| == fileBytes && (fs[part] <= remote || fileBytes > |remote|)
  }

  lemma RenamedOver(
    before: map<Path, seq<Byte>>, after: map<Path, seq<Byte>>, part: Path, destination: Path, content: seq<Byte>)
    requires before - {part} == after - {part} && part != destination
    ensures after[destination := content] - {part} == (before - {part})[destination := content]
  {
    assert after[destination := content] - {part} == (after - {part})[destination := content];
  }

  /** A request, by the content it asks for and the byte it asks from, and the reply to it. */
  datatype Exchange = Exchange(remote: seq<Byte>, range: Option<nat>, reply: Reply)

  /** A 206 that ends before the end of the content. */
  predicate StopsShort(e: Exchange) {
    e.reply.Part? && e.reply.upTo < |e.remote|
  }

  /** Such replies exist, and they end cleanly: the download takes the part for the whole. */
  lemma ShortPartIsHonest()
    ensures exists remote: seq<Byte>, reply: Reply ::
              Honest(remote, Some(1), reply) && StopsShort(Exchange(remote, Some(1), reply)) && reply.clean
  {
    var remote: seq<Byte>, reply := [7, 8, 9], Part(Some(3), 2, [[8]], true);
    assert reply.chunks[..0] == [] && Concat(reply.chunks) == [8] == remote[1..2];
    assert Honest(remote, Some(1), reply) && StopsShort(Exchange(remote, Some(1), reply)) && reply.clean;
  }

  /** A body that ends cleanly: the download takes it for the rest of the file. */
  predicate Completes(reply: Reply) {
    (reply.Whole? || reply.Part?) && reply.clean
  }

  /** A failure that is tried again: no connection, an error of the server (5xx), a timeout (408),
      too many requests (429), or a body that broke off. */
  predicate Fails(reply: Reply) {
    match reply
    case ConnectionError => true
    case Refused(code) => 500 <= code < 600 || code == 408 || code == 429
    case RangeNotSatisfiable => false
    case Whole(_, _, clean) => !clean
    case Part(_, _, _, clean) => !clean
  }

  /** Any other refusal ends the download at once. */
  predicate Rejects(reply: Reply) {
    reply.Refused? && !Fails(reply)
  }

  function Failures(exchanges: seq<Exchange>): nat {
    if exchanges == [] then 0
    else
      var init, last := exchanges[..|exchanges| - 1], exchanges[|exchanges| - 1];
      Failures(init) + if Fails(last.reply) then 1 else 0
  }

  /** The bytes that are kept when a reply came that did not end the download. */
  function KeptBy(bytes: nat, reply: Reply): nat {
    match reply
    case ConnectionError => bytes
    case Refused(_) => bytes
    case RangeNotSatisfiable => 0
    case Whole(_, chunks, _) => |Concat(chunks)|
    case Part(_, _, chunks, _) => bytes + |Concat(chunks)|
  }

  function KeptAfter(start: nat, exchanges: seq<Exchange>): nat {
    if exchanges == [] then start
    else KeptBy(KeptAfter(start, exchanges[..|exchanges| - 1]), exchanges[|exchanges| - 1].reply)
  }

  function RangeFrom(bytes: nat): Option<nat> {
    if bytes > 0 then Some(bytes) else None
  }

  /** Each request asks for what is missing, and for all of it if nothing is kept. */
  predicate Resumes(start: nat, exchanges: seq<Exchange>) {
    exchanges == []
    || (var init := exchanges[..|exchanges| - 1];
        Resumes(start, init) && exchanges[|exchanges| - 1].range == RangeFrom(KeptAfter(start, init)))
  }

  /** Nothing in these replies ends the download: at most ten failures, and otherwise only ranges
      that could not be satisfied. */
  predicate GoesOn(exchanges: seq<Exchange>) {
    Failures(exchanges) <= 10
    && forall i | 0 <= i < |exchanges| :: Fails(exchanges[i].reply) || exchanges[i].reply.RangeNotSatisfiable?
  }

  /** The download has failed: the last reply rejects it, or is the eleventh failure. */
  predicate GaveUp(exchanges: seq<Exchange>) {
    exchanges != [] && GoesOn(exchanges[..|exchanges| - 1])
    && (var last := exchanges[|exchanges| - 1].reply;
        Rejects(last) || (Fails(last) && Failures(exchanges) == 11))
  }

  /** It has succeeded: the last body ended cleanly, or there was no byte left to ask for. */
  predicate CameThrough(exchanges: seq<Exchange>) {
    exchanges != [] && GoesOn(exchanges[..|exchanges| - 1])
    && (var last := exchanges[|exchanges| - 1].reply; Completes(last) || last.RangeNotSatisfiable?)
  }

  /** Nothing is both. */
  lemma OneVerdict(exchanges: seq<Exchange>)
    ensures !(GaveUp(exchanges) && CameThrough(exchanges))
  {
  }

  /** The reply makes for another attempt: a failure is counted, and what is kept is asked for. */
  predicate Repeats(reply: Reply, retries: nat, bytes: nat, newRetries: nat, newBytes: nat) {
    (Fails(reply) || reply.RangeNotSatisfiable?) && newBytes == KeptBy(bytes, reply)
    && newRetries == retries + (if Fails(reply) then 1 else 0) && newRetries <= MAX_RETRIES
    && (reply.RangeNotSatisfiable? ==> bytes > 0 && newBytes == 0)
  }

  predicate Succeeds(reply: Reply) {
    Completes(reply) || reply.RangeNotSatisfiable?
  }

  predicate Ends(reply: Reply, retries: nat) {
    Rejects(reply) || (Fails(reply) && retries == MAX_RETRIES)
  }

  lemma NoExchange(start: nat)
    ensures GoesOn([]) && Failures([]) == 0 && KeptAfter(start, []) == start && Resumes(start, [])
  {
  }

  lemma RemovalIsHarmless(fs: map<Path, seq<Byte>>, part: Path, remote: seq<Byte>)
    requires CanResume(fs, part, remote)
    ensures CanResume(fs - {part}, part, remote)
  {
  }

  lemma OneMoreExchange(start: nat, exchanges: seq<Exchange>, e: Exchange)
    ensures Failures(exchanges + [e]) == Failures(exchanges) + if Fails(e.reply) then 1 else 0
    ensures KeptAfter(start, exchanges + [e]) == KeptBy(KeptAfter(start, exchanges), e.reply)
    ensures Resumes(start, exchanges + [e]) <==>
            Resumes(start, exchanges) && e.range == RangeFrom(KeptAfter(start, exchanges))
  {
    assert (exchanges + [e])[..|exchanges|] == exchanges;
  }

  lemma {:induction false} ConcatPrefix(chunks: seq<seq<Byte>>, i: nat)
    requires i <= |chunks|
    ensures Concat(chunks[..i]) <= Concat(chunks)
  {
    if i == |chunks| {
      assert chunks[..i] == chunks;
    } else {
      var init := chunks[..|chunks| - 1];
      ConcatPrefix(init, i);
      assert init[..i] == chunks[..i];
    }
  }

  predicate NoneStopsShort(log: seq<Exchange>) {
    forall i | 0 <= i < |log| :: !StopsShort(log[i])
  }

  datatype File = File(remote: seq<Byte>, destination: Path)

  /** No file of the list is another one's destination or partial file. */
  predicate Separate(files: seq<File>) {
    forall i, j | 0 <= i < |files| && 0 <= j < |files| && i != j ::
      files[i].destination != files[j].destination && files[i].destination != PartialPath(files[j].destination)
  }

  function TotalCounted(fs: map<Path, seq<Byte>>, files: seq<File>): nat {
    if files == [] then 0
    else TotalCounted(fs, files[..|files| - 1]) + Counted(fs, files[|files| - 1].destination)
  }

  /** A change that leaves every file but the `i`-th as it was changes the total by that file's count. */
  lemma {:induction false} TotalChangesAt(
    before: map<Path, seq<Byte>>, after: map<Path, seq<Byte>>, files: seq<File>, i: nat)
    requires i < |files|
    requires forall j | 0 <= j < |files| && j != i ::
               Counted(after, files[j].destination) == Counted(before, files[j].destination)
    ensures TotalCounted(before, files) >= Counted(before, files[i].destination)
    ensures TotalCounted(after, files) - TotalCounted(before, files)
         == Counted(after, files[i].destination) - Counted(before, files[i].destination)
  {
    var init := files[..|files| - 1];
    if i == |init| {
      TotalSame(before, after, init);
    } else {
      TotalChangesAt(before, after, init, i);
    }
  }

  lemma {:induction false} TotalSame(before: map<Path, seq<Byte>>, after: map<Path, seq<Byte>>, files: seq<File>)
    requires forall j | 0 <= j < |files| ::
               Counted(after, files[j].destination) == Counted(before, files[j].destination)
    ensures TotalCounted(after, files) == TotalCounted(before, files)
  {
    if files != [] { TotalSame(before, after, files[..|files| - 1]); }
  }

  /** Downloading file `i` leaves the other files of the list alone. */
  lemma OthersUntouched(before: map<Path, seq<Byte>>, after: map<Path, seq<Byte>>, files: seq<File>, i: nat, j: nat)
    requires Separate(files) && i < |files| && j < |files| && i != j
    requires files[i].destination in after
    requires var d := files[i].destination; after == (before - {PartialPath(d)})[d := after[d]]
    ensures var d, p := files[j].destination, PartialPath(files[j].destination);
            && (d in after <==> d in before) && (d in after ==> after[d] == before[d])
            && (p in after <==> p in before) && (p in after ==> after[p] == before[p])
  {
    if PartialPath(files[i].destination) == PartialPath(files[j].destination) {
      PartialPathInjective(files[i].destination, files[j].destination);
    }
  }

  /** A failed download of file `i` touches no other file's partial file. */
  lemma OthersResumable(before: map<Path, seq<Byte>>, after: map<Path, seq<Byte>>, files: seq<File>, i: nat)
    requires Separate(files) && i < |files|
    requires var p := PartialPath(files[i].destination); after - {p} == before - {p}
    requires forall j | 0 <= j < |files| :: Resumable(before, files[j].destination, files[j].remote)
    requires Resumable(after, files[i].destination, files[i].remote)
    ensures forall j | 0 <= j < |files| :: Resumable(after, files[j].destination, files[j].remote)
  {
    var p := PartialPath(files[i].destination);
    forall j | 0 <= j < |files| && j != i
      ensures Resumable(after, files[j].destination, files[j].remote)
    {
      var q := PartialPath(files[j].destination);
      if p == q {
        PartialPathInjective(files[i].destination, files[j].destination);
      }
      assert q in after ==> (after - {p})[q] == after[q];
      assert q in before ==> (before - {p})[q] == before[q];
      assert q in after - {p} <==> q in before - {p};
    }
  }

  /** How an attempt of the retry loop ends. */
  datatype Round = Again | Finished | GivenUp

  class Downloader {
    var fs: map<Path, seq<Byte>>
    var cumulativeBytes: nat
    ghost var log: seq<Exchange>    // every reply received, oldest first
    ghost var troubles: nat         // cancellations noticed, and file operations that failed
    ghost var heads: seq<nat>       // the lengths that HEAD requests reported, oldest first

    constructor (files: map<Path, seq<Byte>>)
      ensures fs == files && cumulativeBytes == 0 && log == []
    {
      fs, cumulativeBytes, log, troubles, heads := files, 0, [], 0, [];
    }

    /** Any honest reply. */
    method Get(remote: seq<Byte>, range: Option<nat>) returns (reply: Reply)
      modifies this`log
      ensures Honest(remote, range, reply) && log == old(log) + [Exchange(remote, range, reply)]
    {
      reply := *;
      if !Honest(remote, range, reply) { reply := ConnectionError; }
      log := log + [Exchange(remote, range, reply)];
    }

    /** The length a HEAD request reports, 0 when it reports none. */
    method Head(remote: seq<Byte>) returns (length: nat)
      modifies this`heads
      ensures (length == 0 || length == |remote|) && heads == old(heads) + [length]
    {
      var answered: bool := *;
      length := if answered then |remote| else 0;
      heads := heads + [length];
    }

    /** A cancellation that is noticed, or an operation that fails, or neither. */
    method Trouble() returns (trouble: bool)
      modifies this`troubles
      ensures troubles == if trouble then old(troubles) + 1 else old(troubles)
    {
      trouble := *;
      if trouble { troubles := troubles + 1; }
    }

    /** A removal whose failure is ignored. */
    method TryRemove(path: Path)
      modifies this`fs
      ensures fs == old(fs) || fs == old(fs) - {path}
    {
      var ok: bool := *;
      if ok { fs := fs - {path}; }
    }

    /** Opens the partial file, creating it if need be, and cuts it to `fileBytes`. */
    method OpenPartial(remote: seq<Byte>, part: Path, fileBytes: nat) returns (ok: bool)
      requires fileBytes > 0 ==> part in fs && |fs[part]| == fileBytes
      requires CanResume(fs, part, remote)
      modifies this`fs, this`troubles
      ensures fs - {part} == old(fs) - {part} && CanResume(fs, part, remote)
      ensures ok ==> part in fs && fs[part] == if fileBytes > 0 then old(fs)[part] else []
      ensures ok <==> troubles == old(troubles)
      ensures troubles >= old(troubles)
    {
      var failed := Trouble();
      if failed { return false; }
      if part !in fs { fs := fs[part := []]; }
      if |fs[part]| != fileBytes {
        failed := Trouble();
        if failed { return false; }
        fs := fs[part := fs[part][..fileBytes]];
      }
      return true;
    }

    /** Appends the chunks of a body to the partial file, one by one.  However it ends, the file is
        gone or holds a part of what it was to hold. */
    method AppendChunks(part: Path, chunks: seq<seq<Byte>>, fileBytes: nat) returns (newBytes: nat, ok: bool)
      requires part in fs && |fs[part]| == fileBytes
      modifies this`fs, this`cumulativeBytes, this`troubles
      ensures fs - {part} == old(fs) - {part}
      ensures part in fs ==> fs[part] <= old(fs)[part] + Concat(chunks)
      ensures ok ==> part in fs && fs[part] == old(fs)[part] + Concat(chunks)
      ensures ok ==> newBytes == fileBytes + |Concat(chunks)|
      ensures ok ==> cumulativeBytes == old(cumulativeBytes) + |Concat(chunks)|
      ensures ok <==> troubles == old(troubles)
      ensures troubles >= old(troubles)
    {
      newBytes, ok := fileBytes, true;
      ghost var before := fs[part];
      var i := 0;
      assert chunks[..0] == [] && before + [] == before;
      while i < |chunks|
        invariant 0 <= i <= |chunks|
        invariant fs - {part} == old(fs) - {part} && troubles == old(troubles)
        invariant part in fs && fs[part] == before + Concat(chunks[..i])
        invariant newBytes == fileBytes + |Concat(chunks[..i])|
        invariant cumulativeBytes == old(cumulativeBytes) + |Concat(chunks[..i])|
      {
        ConcatPrefix(chunks, i);
        var isCancelled := Trouble();
        if isCancelled {
          TryRemove(part);
          return newBytes, false;
        }
        assert chunks[..i + 1][..i] == chunks[..i];
        ConcatPrefix(chunks, i + 1);
        assert (before + Concat(chunks[..i])) + chunks[i] == before + Concat(chunks[..i + 1]);
        var failed := Trouble();
        if failed {
          var written: int := *;
          if 0 <= written < |chunks[i]| {
            fs := fs[part := fs[part] + chunks[i][..written]];
          }
          return newBytes, false;
        }
        fs := fs[part := fs[part] + chunks[i]];
        newBytes := newBytes + |chunks[i]|;
        cumulativeBytes := cumulativeBytes + |chunks[i]|;
        i := i + 1;
      }
      assert chunks[..|chunks|] == chunks;
    }

    /** A failed attempt is counted, up to the limit, and slept over unless cancelled. */
    method CountRetry(retries: nat) returns (again: bool, counted: nat)
      requires retries <= MAX_RETRIES
      modifies this`troubles
      ensures again ==> counted == retries + 1 <= MAX_RETRIES
      ensures !again ==> retries == MAX_RETRIES || troubles > old(troubles)
      ensures troubles >= old(troubles)
    {
      if retries >= MAX_RETRIES { return false, retries; }
      var isCancelled := Trouble();
      return !isCancelled, retries + 1;
    }

    method Rename(part: Path, destination: Path) returns (ok: bool)
      requires part in fs && part != destination
      modifies this`fs, this`troubles
      ensures fs == if ok then old(fs)[destination := old(fs)[part]] - {part} else old(fs)
      ensures ok <==> troubles == old(troubles)
      ensures troubles >= old(troubles)
    {
      var failed := Trouble();
      ok := !failed;
      if ok { fs := fs[destination := fs[part]] - {part}; }
    }

    /** Writes the body of a 200 or 206 behind the `fileBytes` bytes that are kept. */
    method Receive(remote: seq<Byte>, part: Path, reply: Reply, fileBytes: nat) returns (newBytes: nat, ok: bool)
      requires reply.Whole? || reply.Part?
      requires Honest(remote, if fileBytes > 0 then Some(fileBytes) else None, reply)
               || (fileBytes == 0 && reply.Whole?)
      requires reply.Whole? ==>
                 fileBytes == 0 && Concat(reply.chunks) <= remote && (reply.clean ==> Concat(reply.chunks) == remote)
      requires PartialHolds(fs, part, fileBytes, remote) && CanResume(fs, part, remote)
      modifies this`fs, this`cumulativeBytes, this`troubles
      ensures fs - {part} == old(fs) - {part} && CanResume(fs, part, remote)
      ensures ok ==> part in fs && |fs[part]| == newBytes && fs[part] <= remote
      ensures ok ==> cumulativeBytes + fileBytes == old(cumulativeBytes) + newBytes
      ensures ok && reply.clean ==> newBytes == if reply.Part? then reply.upTo else |remote|
      ensures ok ==> newBytes == fileBytes + |Concat(reply.chunks)|
      ensures ok <==> troubles == old(troubles)
      ensures troubles >= old(troubles)
    {
      ok := OpenPartial(remote, part, fileBytes);
      if !ok { return fileBytes, false; }
      ghost var kept := fs[part];
      if reply.Part? {
        assert remote == remote[..fileBytes] + remote[fileBytes..];
        assert kept == remote[..fileBytes];
      }
      assert kept + Concat(reply.chunks) <= remote;
      newBytes, ok := AppendChunks(part, reply.chunks, fileBytes);
      if !ok { return; }
      var failed := Trouble();
      ok := !failed;
    }

    /** Gives up the bytes of the partial file; the subtraction never clamps. */
    method StartOver(remote: seq<Byte>, part: Path, fileBytes: nat)
      requires fileBytes <= cumulativeBytes && CanResume(fs, part, remote)
      modifies this`fs, this`cumulativeBytes
      ensures cumulativeBytes == old(cumulativeBytes) - fileBytes
      ensures fs - {part} == old(fs) - {part} && CanResume(fs, part, remote)
    {
      cumulativeBytes := SaturatingSub(cumulativeBytes, fileBytes);
      TryRemove(part);
    }

    /** One attempt of the retry loop. */
    method Attempt(remote: seq<Byte>, part: Path, retries: nat, fileBytes: nat, fileTotal: nat, ghost others: nat)
      returns (round: Round, newRetries: nat, newBytes: nat, newTotal: nat)
      requires retries <= MAX_RETRIES && (fileTotal == 0 || fileTotal == |remote|)
      requires PartialHolds(fs, part, fileBytes, remote) && CanResume(fs, part, remote)
      requires cumulativeBytes == others + fileBytes
      modifies this`fs, this`cumulativeBytes, this`troubles, this`log
      ensures fs - {part} == old(fs) - {part} && CanResume(fs, part, remote)
      ensures log == old(log) || (|log| == |old(log)| + 1 && old(log) <= log
                                  && log[|old(log)|].range == RangeFrom(fileBytes))
      ensures !round.GivenUp? || troubles == old(troubles) ==> |log| == |old(log)| + 1
      ensures round.Again? ==> Repeats(log[|old(log)|].reply, retries, fileBytes, newRetries, newBytes)
      ensures round.Again? ==> newTotal == 0 || newTotal == |remote|
      ensures round.Again? ==> PartialHolds(fs, part, newBytes, remote) && cumulativeBytes == others + newBytes
      ensures round.Finished? ==> Succeeds(log[|old(log)|].reply)
      ensures round.Finished? ==>
                part in fs && fs[part] <= remote && (fs[part] == remote <==> !StopsShort(log[|log| - 1]))
                && cumulativeBytes == others + |fs[part]|
      ensures round.GivenUp? && troubles == old(troubles) ==> Ends(log[|old(log)|].reply, retries)
      ensures troubles >= old(troubles)
    {
      hide StopsShort, Repeats, Succeeds, Ends, PartialHolds, CanResume;
      newRetries, newBytes, newTotal := retries, fileBytes, fileTotal;
      var isCancelled := Trouble();
      if isCancelled {
        RemovalIsHarmless(fs, part, remote);
        TryRemove(part);
        return GivenUp, newRetries, newBytes, newTotal;
      }
      var reply := Get(remote, RangeFrom(fileBytes));
      round, newRetries, newBytes, newTotal := TakeReply(remote, part, reply, retries, fileBytes, fileTotal, others);
    }

    /** What is made of a reply. */
    method TakeReply(remote: seq<Byte>, part: Path, reply: Reply, retries: nat, fileBytes: nat, fileTotal: nat,
                     ghost others: nat)
      returns (round: Round, newRetries: nat, newBytes: nat, newTotal: nat)
      requires retries <= MAX_RETRIES && (fileTotal == 0 || fileTotal == |remote|)
      requires PartialHolds(fs, part, fileBytes, remote) && CanResume(fs, part, remote)
      requires cumulativeBytes == others + fileBytes && Honest(remote, RangeFrom(fileBytes), reply)
      modifies this`fs, this`cumulativeBytes, this`troubles
      ensures fs - {part} == old(fs) - {part} && CanResume(fs, part, remote)
      ensures round.Again? ==> Repeats(reply, retries, fileBytes, newRetries, newBytes)
      ensures round.Again? ==> newTotal == 0 || newTotal == |remote|
      ensures round.Again? ==> PartialHolds(fs, part, newBytes, remote) && cumulativeBytes == others + newBytes
      ensures round.Finished? ==> Succeeds(reply)
      ensures round.Finished? ==>
                part in fs && fs[part] <= remote
                && (fs[part] == remote <==> !StopsShort(Exchange(remote, RangeFrom(fileBytes), reply)))
                && cumulativeBytes == others + |fs[part]|
      ensures round.GivenUp? && troubles == old(troubles) ==> Ends(reply, retries)
      ensures troubles >= old(troubles)
    {
      hide Concat;
      newRetries, newBytes, newTotal := retries, fileBytes, fileTotal;
      if reply.ConnectionError? || (reply.Refused? && IsTransient(reply.code)) {
        var again;
        again, newRetries := CountRetry(retries);
        return if again then Again else GivenUp, newRetries, newBytes, newTotal;
      }
      if reply.Refused? { return GivenUp, newRetries, newBytes, newTotal; }
      if reply.RangeNotSatisfiable? {
        if fileTotal > 0 && fileBytes == fileTotal { return Finished, newRetries, newBytes, newTotal; }
        StartOver(remote, part, fileBytes);
        newBytes := 0;
        return Again, newRetries, newBytes, newTotal;
      }
      if fileBytes > 0 && reply.Whole? {
        StartOver(remote, part, fileBytes);
        newBytes := 0;
      }
      if fileTotal == 0 {
        var stated := if reply.Part? then reply.total else reply.length;
        if stated.Some? { newTotal := stated.value; }
      }
      round, newRetries, newBytes := ReceiveBody(remote, part, reply, retries, newBytes, others);
    }

    /** The body is written; if the stream ends early the attempt is counted. */
    method ReceiveBody(remote: seq<Byte>, part: Path, reply: Reply, retries: nat, fileBytes: nat, ghost others: nat)
      returns (round: Round, newRetries: nat, newBytes: nat)
      requires retries <= MAX_RETRIES && (reply.Whole? || reply.Part?)
      requires Honest(remote, if fileBytes > 0 then Some(fileBytes) else None, reply)
               || (fileBytes == 0 && reply.Whole?)
      requires reply.Whole? ==>
                 fileBytes == 0 && Concat(reply.chunks) <= remote && (reply.clean ==> Concat(reply.chunks) == remote)
      requires PartialHolds(fs, part, fileBytes, remote) && CanResume(fs, part, remote)
      requires cumulativeBytes == others + fileBytes
      modifies this`fs, this`cumulativeBytes, this`troubles
      ensures fs - {part} == old(fs) - {part} && CanResume(fs, part, remote)
      ensures round.Again? ==> newRetries == retries + 1 <= MAX_RETRIES
      ensures round.Again? ==> !reply.clean && newBytes == fileBytes + |Concat(reply.chunks)|
      ensures round.GivenUp? && troubles == old(troubles) ==> !reply.clean && retries == MAX_RETRIES
      ensures round.Again? ==> PartialHolds(fs, part, newBytes, remote) && cumulativeBytes == others + newBytes
      ensures round.Finished? ==>
                part in fs && fs[part] <= remote
                && reply.clean && |fs[part]| == (if reply.Part? then reply.upTo else |remote|)
                && cumulativeBytes == others + |fs[part]|
      ensures troubles >= old(troubles)
    {
      newRetries := retries;
      var received;
      newBytes, received := Receive(remote, part, reply, fileBytes);
      if !received { return GivenUp, newRetries, newBytes; }
      if reply.clean { return Finished, newRetries, newBytes; }
      var again;
      again, newRetries := CountRetry(retries);
      return if again then Again else GivenUp, newRetries, newBytes;
    }

    /** The retry loop of `download_one_file`.  It ends because an attempt that is not counted
        gives up a partial file, and only a counted attempt can build one up again.  However it
        ends, a later run can resume.  Each request asks for what is missing.  If nothing is
        cancelled and no file operation fails, the first body that ends cleanly ends it with
        success, also if it stops short, and only a rejection or the eleventh failure makes it
        fail. */
    method Fetch(remote: seq<Byte>, part: Path, startBytes: nat, startTotal: nat, ghost others: nat)
      returns (ok: bool)
      requires startTotal == 0 || startTotal == |remote|
      requires PartialHolds(fs, part, startBytes, remote) && CanResume(fs, part, remote)
      requires cumulativeBytes == others + startBytes
      modifies this
      ensures fs - {part} == old(fs) - {part} && CanResume(fs, part, remote)
      ensures old(log) <= log && |log| <= |old(log)| + 2 * (MAX_RETRIES + 1)
      ensures ok ==> log != old(log)
      ensures ok ==> part in fs && fs[part] <= remote && (fs[part] == remote <==> !StopsShort(log[|log| - 1]))
      ensures ok ==> cumulativeBytes == others + |fs[part]|
      ensures Resumes(startBytes, log[|old(log)|..])
      ensures ok ==> CameThrough(log[|old(log)|..])
      ensures !ok && troubles == old(troubles) ==> GaveUp(log[|old(log)|..])
      ensures troubles >= old(troubles) && heads == old(heads)
    {
      NoExchange(startBytes);
      hide Honest, StopsShort, PartialHolds, CanResume, Completes, Fails, KeptBy, KeptAfter, Failures, Resumes;
      var retries, fileBytes, fileTotal := 0, startBytes, startTotal;
      ghost var resets, exchanges := 0, [];
      while true
        invariant retries <= MAX_RETRIES
        invariant fileTotal == 0 || fileTotal == |remote|
        invariant PartialHolds(fs, part, fileBytes, remote) && CanResume(fs, part, remote)
        invariant cumulativeBytes == others + fileBytes
        invariant fs - {part} == old(fs) - {part}
        invariant old(log) <= log && |log| == |old(log)| + retries + resets
        invariant resets <= retries + (if fileBytes == 0 then 1 else 0)
        invariant troubles >= old(troubles)
        invariant exchanges == log[|old(log)|..] && GoesOn(exchanges) && retries == Failures(exchanges)
        invariant Resumes(startBytes, exchanges) && fileBytes == KeptAfter(startBytes, exchanges)
        invariant heads == old(heads)
        decreases MAX_RETRIES - retries, if fileBytes > 0 then 1 else 0
      {
        ghost var before, received := retries, log;
        var round;
        round, retries, fileBytes, fileTotal := Attempt(remote, part, retries, fileBytes, fileTotal, others);
        if |log| > |received| {
          ghost var e := log[|received|];
          assert log[|old(log)|..] == exchanges + [e];
          assert (exchanges + [e])[..|exchanges|] == exchanges;
          OneMoreExchange(startBytes, exchanges, e);
          exchanges := exchanges + [e];
        }
        match round
        case Finished => return true;
        case GivenUp => return false;
        case Again =>
          if retries == before { resets := resets + 1; }
      }
    }

    /** `download_one_file`: on success the destination holds a prefix of the remote content, and
        all of it exactly when the reply that completed it did not stop short.  If it fails, a
        later run can resume what it leaves. */
    method DownloadOneFile(remote: seq<Byte>, destination: Path, ghost others: nat) returns (ok: bool)
      requires destination !in fs && Resumable(fs, destination, remote)
      requires cumulativeBytes == others + Counted(fs, destination)
      modifies this
      ensures old(log) <= log && |log| <= |old(log)| + 2 * (MAX_RETRIES + 1)
      ensures |heads| == |old(heads)| + 1 && old(heads) <= heads
      ensures var head, kept := heads[|old(heads)|], Kept(old(fs), PartialPath(destination));
              (head > 0 && kept == head ==> log == old(log))
              && (head == 0 || kept != head ==> ok ==> CameThrough(log[|old(log)|..]))
              && Resumes(if head > 0 && kept > head then 0 else kept, log[|old(log)|..])
      ensures !ok && troubles == old(troubles) ==> GaveUp(log[|old(log)|..])
      ensures troubles >= old(troubles)
      ensures ok ==> destination in fs && fs == (old(fs) - {PartialPath(destination)})[destination := fs[destination]]
      ensures ok ==> fs[destination] <= remote
      ensures ok ==> (fs[destination] == remote <==> log == old(log) || !StopsShort(log[|log| - 1]))
      ensures ok ==> cumulativeBytes == others + |fs[destination]|
      ensures !ok ==> fs - {PartialPath(destination)} == old(fs) - {PartialPath(destination)}
      ensures Resumable(fs, destination, remote)
    {
      var part := PartialPath(destination);
      var fileBytes: nat := if part in fs then |fs[part]| else 0;
      var fileTotal := Head(remote);

      if !(fileTotal > 0 && fileBytes == fileTotal) {
        if fileTotal > 0 && fileBytes > fileTotal {
          cumulativeBytes := SaturatingSub(cumulativeBytes, fileBytes);
          fileBytes := 0;
          TryRemove(part);
        }
        ok := Fetch(remote, part, fileBytes, fileTotal, others);
        if !ok { return; }
      }
      RenamedOver(old(fs), fs, part, destination, fs[part]);
      ok := Rename(part, destination);
    }

    /** The bytes on disk for the list, counted before the first download. */
    method CountExisting(files: seq<File>)
      modifies this`cumulativeBytes
      ensures cumulativeBytes == TotalCounted(fs, files)
    {
      cumulativeBytes := 0;
      var i := 0;
      while i < |files|
        invariant 0 <= i <= |files|
        invariant cumulativeBytes == TotalCounted(fs, files[..i])
      {
        assert files[..i + 1][..i] == files[..i];
        cumulativeBytes := cumulativeBytes + Counted(fs, files[i].destination);
        i := i + 1;
      }
      assert files[..|files|] == files;
    }

    /** `download_files_sequentially`: on success every destination exists, files that were there are
        as they were, and every new one equals its remote content unless some reply stopped short.
        Whether it succeeds or fails, it can be run again. */
    method DownloadFilesSequentially(files: seq<File>) returns (ok: bool)
      requires Separate(files)
      requires forall i | 0 <= i < |files| :: Resumable(fs, files[i].destination, files[i].remote)
      modifies this
      ensures old(log) <= log
      ensures ok ==> cumulativeBytes == TotalCounted(fs, files)
      ensures ok ==> forall i | 0 <= i < |files| ::
                var d := files[i].destination;
                && d in fs
                && (d in old(fs) ==> fs[d] == old(fs)[d])
                && (d !in old(fs) ==> fs[d] <= files[i].remote)
                && (d !in old(fs) && NoneStopsShort(log) ==> fs[d] == files[i].remote)
      ensures forall i | 0 <= i < |files| :: Resumable(fs, files[i].destination, files[i].remote)
      ensures !ok && troubles == old(troubles) ==> exists n | |old(log)| <= n < |log| :: GaveUp(log[n..])
    {
      hide GaveUp, CameThrough, Resumes, StopsShort, Honest;
      CountExisting(files);
      var i := 0;
      while i < |files|
        invariant 0 <= i <= |files|
        invariant old(log) <= log
        invariant cumulativeBytes == TotalCounted(fs, files)
        invariant forall j | i <= j < |files| :: SameFile(old(fs), fs, files[j].destination)
        invariant forall j | 0 <= j < i :: Settled(old(fs), fs, files[j], log)
        invariant forall j | 0 <= j < |files| :: Resumable(fs, files[j].destination, files[j].remote)
        invariant troubles >= old(troubles)
      {
        var isCancelled := Trouble();
        if isCancelled { return false; }
        var d := files[i].destination;
        if d in fs {
          i := i + 1;
          continue;
        }
        ghost var before, logBefore := fs, log;
        TotalChangesAt(fs, fs, files, i);
        ok := DownloadOneFile(files[i].remote, d, cumulativeBytes - Counted(fs, d));
        if !ok {
          OthersResumable(before, fs, files, i);
          assert troubles == old(troubles) ==> GaveUp(log[|logBefore|..]);
          return false;
        }
        forall j | 0 <= j < |files| && j != i
          ensures SameFile(before, fs, files[j].destination)
        {
          OthersUntouched(before, fs, files, i, j);
        }
        TotalChangesAt(before, fs, files, i);
        i := i + 1;
      }
      ok := true;
    }
  }

  /** The destination and its partial file are as they were. */
  ghost predicate SameFile(before: map<Path, seq<Byte>>, after: map<Path, seq<Byte>>, d: Path) {
    var p := PartialPath(d);
    && (d in after <==> d in before) && (d in after ==> after[d] == before[d])
    && (p in after <==> p in before) && (p in after ==> after[p] == before[p])
  }

  ghost predicate Settled(before: map<Path, seq<Byte>>, after: map<Path, seq<Byte>>, file: File, log: seq<Exchange>) {
    var d := file.destination;
    && d in after
    && (d in before ==> after[d] == before[d])
    && (d !in before ==> after[d] <= file.remote)
    && (d !in before && NoneStopsShort(log) ==> after[d] == file.remote)
  }
}
