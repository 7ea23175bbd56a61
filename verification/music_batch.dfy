/**
 * `ytm_handler`: the music batch. Links are harvested from a message or a
 * text file, given a scheme and split at "://", then walked one by one from
 * a start index. Before each item the shared cancel flag is read; each item
 * gets a title from oEmbed, a sanitised file name, one yt-dlp call and one
 * reply, and the counter goes up by one.
 *
 * The outside world is given as oracles indexed by the number of the check:
 * `cancel(j)` is the value the cancel flag holds at the j-th check (another
 * handler sets it; `cancel(Checks(b))`, past the last check, is what it
 * holds when the loop is over), `world(j)` what the j-th item's oEmbed
 * lookup, yt-dlp run, file test and upload give.
 */
module MusicBatch {
  import opened Strings
  import opened LinkHarvest
  import opened Filenames

  // ---------------------------------------------------------------------------
  // The shared flags
  // ---------------------------------------------------------------------------

  /** The two flags of the shared `globals` module that this handler writes. */
  class SharedFlags {
    var processingRequest: bool
    var cancelRequested: bool

    constructor (processing: bool, cancel: bool)
      ensures processingRequest == processing && cancelRequested == cancel
    {
      processingRequest := processing;
      cancelRequested := cancel;
    }

    /** Lines 100-101: a new request is being processed and no cancel is pending. */
    method Begin()
      modifies this
      ensures processingRequest && !cancelRequested
    {
      processingRequest := true;
      cancelRequested := false;
    }

    /** The cancel branch: both flags are cleared. */
    method ClearOnCancel()
      modifies this
      ensures !processingRequest && !cancelRequested
    {
      processingRequest := false;
      cancelRequested := false;
    }

    /** Another handler has left `requested` in the cancel flag while this one awaited. */
    method ObserveCancel(requested: bool)
      modifies this
      ensures cancelRequested == requested && processingRequest == old(processingRequest)
    {
      cancelRequested := requested;
    }

    /** The `finally` block: processing is over; the cancel flag is left as it is. */
    method Finish()
      modifies this
      ensures !processingRequest && cancelRequested == old(cancelRequested)
    {
      processingRequest := false;
    }
  }

  // ---------------------------------------------------------------------------
  // Titles and names
  // ---------------------------------------------------------------------------

  /** What the oEmbed lookup gives. */
  datatype TitleLookup =
    | TitleFound(title: string)   // status 200 and a string "title"
    | TitleNull                   // status 200 and "title": null
    | NoTitle                     // another status, no "title" key, or an exception

  const FallbackTitle: string := "YouTube Video"

  /** The title before `.replace`; None when it is null, where `.replace` raises. */
  function LookupTitle(l: TitleLookup): (t: Option<string>)
    ensures t.None? <==> l.TitleNull?
    ensures l.TitleFound? ==> t == Some(l.title)
    ensures l.NoTitle? ==> t == Some(FallbackTitle)
  {
    match l
    case TitleFound(title) => Some(title)
    case TitleNull => None
    case NoTitle => Some(FallbackTitle)
  }

  /** The longest title part of the file name. */
  const TitlePrefixLength: nat := 60

  /** `name`, the file name without ".mp3", and `name1`, the name shown in replies. */
  datatype Names = Names(fileName: string, shownName: string)

  /** Lines 227-231: underscores in the title become spaces, then the title is sanitised, cut to 60 and CREDIT appended. */
  function BuildNames(title: string, credit: string): (n: Names)
  {
    var audioTitle := ReplaceChar(title, '_', ' ');
    var safeTitle := SanitizeFilename(audioTitle);
    var prefix := if |safeTitle| <= TitlePrefixLength then safeTitle else safeTitle[..TitlePrefixLength];
    Names(prefix + "_" + credit, audioTitle + " " + credit)
  }

  /** An output file name: a clean title part of at most 60 characters, then '_', CREDIT and ".mp3". */
  predicate CleanOutput(out: string, credit: string) {
    var tail := "_" + credit + ".mp3";
    |tail| <= |out| <= TitlePrefixLength + |tail|
    && out[|out| - |tail|..] == tail
    && IsClean(out[..|out| - |tail|])
  }

  /**
   * The file name handed to yt-dlp is a clean title part of at most 60
   * characters, the start of the sanitised title, then '_' and CREDIT; the
   * shown name is the title with its underscores turned into spaces.
   */
  lemma BuildNamesShape(title: string, credit: string)
    ensures CleanOutput(BuildNames(title, credit).fileName + ".mp3", credit)
    ensures var f := BuildNames(title, credit).fileName;
      |credit| + 1 <= |f| && StartsWith(SanitizeFilename(ReplaceChar(title, '_', ' ')), f[..|f| - |credit| - 1])
    ensures BuildNames(title, credit).shownName == ReplaceChar(title, '_', ' ') + " " + credit
    ensures '_' !in BuildNames(title, credit).shownName[..|title|]
  {
    var safeTitle := SanitizeFilename(ReplaceChar(title, '_', ' '));
    var prefix := if |safeTitle| <= TitlePrefixLength then safeTitle else safeTitle[..TitlePrefixLength];
    var n := BuildNames(title, credit);
    var out := n.fileName + ".mp3";
    var tail := "_" + credit + ".mp3";
    assert out == prefix + tail;
    assert out[..|out| - |tail|] == prefix;
    assert out[|out| - |tail|..] == tail;
    var shown := n.shownName[..|title|];
    assert shown == ReplaceChar(title, '_', ' ');
    assert forall i :: 0 <= i < |shown| ==> shown[i] != '_';
  }

  // ---------------------------------------------------------------------------
  // One item
  // ---------------------------------------------------------------------------

  /** How `subprocess.run` of yt-dlp ends. */
  datatype ToolRun =
    | Exited(returnCode: int, stderr: string)
    | TimedOut
    | Crashed

  /** What the world gives for one item. */
  datatype ItemWorld = ItemWorld(lookup: TitleLookup, run: ToolRun, fileExists: bool, uploadOk: bool)

  /** A yt-dlp call: the link and the output file. */
  datatype ToolCall = ToolCall(url: string, output: string)

  /** The replies of the batch. `number` is the counter shown with `zfill(3)`. */
  datatype Event =
    | Stopped
    | Sent(number: int, name: string, url: string)
    | UploadFailed(number: int, name: string, url: string)
    | DownloadFailed(number: int, name: string, url: string, error: string)
    | FailedReason(message: string)
    | AllDone

  /** A reply for a processed link. */
  predicate IsItemReply(e: Event) {
    e.Sent? || e.UploadFailed? || e.DownloadFailed?
  }

  const IndexOutOfRange: string := "list index out of range"
  const NullTitleReplace: string := "'NoneType' object has no attribute 'replace'"
  const UnknownError: string := "Unknown error"
  const ErrorLength: nat := 100

  /** `"youtube.com" in url or "youtu.be" in url` (case-sensitive). */
  predicate IsYouTubeLink(url: string) {
    Contains(url, "youtube.com") || Contains(url, ShortHost)
  }

  /**
   * `error_msg[:100]`: the stderr of the last run that returned, stale or
   * not, when it is non-empty, else "Unknown error".
   */
  function ErrorText(last: Option<string>): (e: string)
    ensures |e| <= ErrorLength
    ensures last.None? || last.value == [] ==> e == UnknownError
    ensures last.Some? && last.value != [] ==> StartsWith(last.value, e) && |e| == Min(|last.value|, ErrorLength)
  {
    var msg := if last.Some? && last.value != [] then last.value else UnknownError;
    if |msg| <= ErrorLength then msg else msg[..ErrorLength]
  }

  function Min(a: int, b: int): int { if a <= b then a else b }

  /** Python's `links[i]` for `-n <= i < n`. */
  function PyIndex(i: int, n: nat): (k: nat)
    requires 0 <= i + n && i < n
    ensures k < n
    ensures i >= 0 ==> k == i
    ensures i < 0 ==> k == i + n
  {
    if i < 0 then i + n else i
  }

  // ---------------------------------------------------------------------------
  // The walk
  // ---------------------------------------------------------------------------

  /** The batch's inputs: the links, `arg` (also the counter's start), CREDIT and the oracles. */
  datatype Batch = Batch(links: seq<(string, string)>, arg: int, credit: string,
                         cancel: nat -> bool, world: nat -> ItemWorld)

  /** `range(arg - 1, len(links))` has this many indices. */
  function Checks(b: Batch): (n: nat)
    ensures n == 0 <==> b.arg - 1 >= |b.links|
    ensures n > 0 ==> b.arg - 1 + n == |b.links|
  {
    if b.arg - 1 >= |b.links| then 0 else |b.links| - (b.arg - 1)
  }

  /** How the walk stopped, when it stopped early. */
  datatype Stop = Cancelled | Raised(message: string)

  /** What one check does. */
  datatype Outcome =
    | Halt(event: Event, reason: Stop)                               // cancelled, or an exception reached the outer handler
    | Skip                                                           // the URL test failed
    | Processed(reply: Event, call: ToolCall, last: Option<string>)  // one yt-dlp call and one reply

  /**
   * The item at Python index i (lines 194-263), given the counter and the
   * stderr of the last yt-dlp run that returned.
   */
  function ItemOutcome(links: seq<(string, string)>, i: int, credit: string, w: ItemWorld,
                       count: int, last: Option<string>): (o: Outcome)
    ensures o.Halt? ==> o.reason.Raised? && o.event == FailedReason(o.reason.message)
    ensures o.Halt? <==> !(-|links| <= i < |links|) || w.lookup.TitleNull?
    ensures o.Processed? ==> IsItemReply(o.reply) && o.reply.number == count
    ensures !o.Halt? ==> (o.Skip? <==> !IsYouTubeLink(AudioUrl(links[PyIndex(i, |links|)].1)))
    ensures o.Processed? ==> o.call.url == AudioUrl(links[PyIndex(i, |links|)].1) && IsYouTubeLink(o.call.url)
    ensures o.Processed? ==> o.call.output == BuildNames(LookupTitle(w.lookup).value, credit).fileName + ".mp3"
  {
    var n: int := |links|;
    if !(-n <= i < n) then Halt(FailedReason(IndexOutOfRange), Raised(IndexOutOfRange))
    else
      var url := AudioUrl(links[PyIndex(i, n)].1);
      match LookupTitle(w.lookup)
      case None => Halt(FailedReason(NullTitleReplace), Raised(NullTitleReplace))
      case Some(title) =>
        if !IsYouTubeLink(url) then Skip
        else
          var names := BuildNames(title, credit);
          var last' := if w.run.Exited? then Some(w.run.stderr) else last;
          var success := w.run.Exited? && w.run.returnCode == 0;
          var reply :=
            if success && w.fileExists then
              if w.uploadOk then Sent(count, names.shownName, url) else UploadFailed(count, names.shownName, url)
            else DownloadFailed(count, names.shownName, url, ErrorText(last'));
          Processed(reply, ToolCall(url, names.fileName + ".mp3"), last')
  }

  /** The j-th check: the cancel flag first, then the item at index `arg - 1 + j`. */
  function CheckOutcome(b: Batch, j: nat, count: int, last: Option<string>): (o: Outcome)
    ensures b.cancel(j) ==> o == Halt(Stopped, Cancelled)
    ensures o.Halt? && o.reason == Cancelled ==> b.cancel(j)
    ensures !b.cancel(j) ==> o == ItemOutcome(b.links, b.arg - 1 + j, b.credit, b.world(j), count, last)
  {
    if b.cancel(j) then Halt(Stopped, Cancelled)
    else ItemOutcome(b.links, b.arg - 1 + j, b.credit, b.world(j), count, last)
  }

  /** One check as a function of its number, the counter and the last stderr. */
  type Checker = (nat, int, Option<string>) -> Outcome

  function CheckerOf(b: Batch): Checker {
    (j: nat, count: int, last: Option<string>) => CheckOutcome(b, j, count, last)
  }

  /** The batch's state after some checks. `last` is the stderr of the last yt-dlp run that returned. */
  datatype State = State(events: seq<Event>, calls: seq<ToolCall>, count: int, last: Option<string>, stop: Option<Stop>)

  /** The state after one check with outcome o. */
  function Apply(s: State, o: Outcome): (t: State)
    ensures |t.events| <= |s.events| + 1 && s.events <= t.events
  {
    match o
    case Halt(e, r) => s.(events := s.events + [e], stop := Some(r))
    case Skip => s
    case Processed(reply, call, last) => State(s.events + [reply], s.calls + [call], s.count + 1, last, None)
  }

  /** The state after the first k checks, the counter starting at `arg`; once stopped it stays as it is. */
  function Walk(check: Checker, arg: int, k: nat): State
  {
    if k == 0 then State([], [], arg, None, None)
    else
      var s := Walk(check, arg, k - 1);
      if s.stop.Some? then s else Apply(s, check(k - 1, s.count, s.last))
  }

  /** The state after all the checks of the batch. */
  function BatchWalk(b: Batch): State {
    Walk(CheckerOf(b), b.arg, Checks(b))
  }

  /** The replies of the whole batch: the walk, then the `finally` reply. */
  function BatchEvents(b: Batch): seq<Event> {
    BatchWalk(b).events + [AllDone]
  }

  /** The loop of lines 187-263: the checks, in order, until one stops the batch. */
  method WalkChecks(check: Checker, arg: int, checks: nat) returns (s: State)
    ensures s == Walk(check, arg, checks)
  {
    s := State([], [], arg, None, None);
    var j := 0;
    while j < checks
      invariant j <= checks
      invariant s == Walk(check, arg, j) && s.stop.None?
    {
      s := Apply(s, check(j, s.count, s.last));
      j := j + 1;
      if s.stop.Some? {
        WalkStopped(check, arg, j, checks);
        return;
      }
    }
  }

  /**
   * The whole batch: the loop, the cancel branch clearing both flags, and
   * the `finally` block with its reply and `processing_request = False`.
   * When the loop was not cancelled, the cancel flag keeps what other
   * handlers left in it after the last check: nothing reads or clears it.
   */
  method RunBatch(flags: SharedFlags, b: Batch) returns (events: seq<Event>, calls: seq<ToolCall>, count: int)
    modifies flags
    ensures events == BatchEvents(b)
    ensures calls == BatchWalk(b).calls
    ensures count == BatchWalk(b).count
    ensures !flags.processingRequest
    ensures flags.cancelRequested == (b.cancel(Checks(b)) && BatchWalk(b).stop != Some(Cancelled))
  {
    var s := WalkChecks(CheckerOf(b), b.arg, Checks(b));
    if s.stop == Some(Cancelled) {
      flags.ClearOnCancel();
    } else {
      flags.ObserveCancel(b.cancel(Checks(b)));
    }
    events := s.events + [AllDone];
    calls := s.calls;
    count := s.count;
    flags.Finish();
  }

  /** Once the walk has stopped, later checks change nothing. */
  lemma {:induction false} WalkStopped(check: Checker, arg: int, k: nat, m: nat)
    requires k <= m && Walk(check, arg, k).stop.Some?
    ensures Walk(check, arg, m) == Walk(check, arg, k)
    decreases m - k
  {
    if k < m {
      WalkStopped(check, arg, k, m - 1);
    }
  }

  // ---------------------------------------------------------------------------
  // Properties of the walk
  // ---------------------------------------------------------------------------

  /** The numbers of the item replies, in order. */
  function ItemNumbers(events: seq<Event>): (ns: seq<int>)
    ensures |ns| <= |events|
  {
    if |events| == 0 then []
    else
      var e := events[|events| - 1];
      ItemNumbers(events[..|events| - 1]) + (if IsItemReply(e) then [e.number] else [])
  }

  lemma ItemNumbersAppend(events: seq<Event>, e: Event)
    ensures ItemNumbers(events + [e]) == ItemNumbers(events) + (if IsItemReply(e) then [e.number] else [])
  {
    assert (events + [e])[..|events|] == events;
  }

  /** Every processed check sends an item reply numbered with the counter; a halt sends none. */
  ghost predicate WellNumbered(check: Checker) {
    forall j: nat, count: int, last: Option<string> {:trigger check(j, count, last)} ::
      (check(j, count, last).Processed? ==>
        IsItemReply(check(j, count, last).reply) && check(j, count, last).reply.number == count)
      && (check(j, count, last).Halt? ==> !IsItemReply(check(j, count, last).event))
  }

  lemma BatchWellNumbered(b: Batch)
    ensures WellNumbered(CheckerOf(b))
  {
  }

  /** One check moves the counter by at most one; it moves exactly when a call is made and an item reply numbered with the old counter is sent. */
  lemma ApplyCounts(s: State, o: Outcome)
    requires s.stop.None?
    requires o.Processed? ==> IsItemReply(o.reply) && o.reply.number == s.count
    requires o.Halt? ==> !IsItemReply(o.event)
    ensures var t := Apply(s, o);
      0 <= t.count - s.count <= 1
      && |t.calls| == |s.calls| + (t.count - s.count)
      && ItemNumbers(t.events) == ItemNumbers(s.events) + (if t.count == s.count + 1 then [s.count] else [])
  {
    match o
    case Halt(e, r) => ItemNumbersAppend(s.events, e);
    case Skip =>
    case Processed(reply, call, last) => ItemNumbersAppend(s.events, reply);
  }

  /**
   * The counter goes up by exactly one per processed link: it equals `arg`
   * plus the number of yt-dlp calls, and the item replies are numbered
   * `arg`, `arg + 1`, ... in order, one per call.
   */
  lemma {:induction false} CountPerProcessedLink(check: Checker, arg: int, k: nat)
    requires WellNumbered(check)
    ensures var s := Walk(check, arg, k);
      s.count == arg + |s.calls|
      && |ItemNumbers(s.events)| == |s.calls|
      && forall x :: 0 <= x < |s.calls| ==> ItemNumbers(s.events)[x] == arg + x
  {
    if k > 0 {
      CountPerProcessedLink(check, arg, k - 1);
      var s := Walk(check, arg, k - 1);
      if s.stop.None? {
        ApplyCounts(s, check(k - 1, s.count, s.last));
      }
    }
  }

  /** The batch's counter: `arg` plus one per processed link, shown on the replies in order. */
  lemma BatchCount(b: Batch)
    ensures BatchWalk(b).count == b.arg + |BatchWalk(b).calls|
    ensures |ItemNumbers(BatchWalk(b).events)| == |BatchWalk(b).calls|
    ensures ItemNumbers(BatchEvents(b)) == ItemNumbers(BatchWalk(b).events)
    ensures forall x :: 0 <= x < |BatchWalk(b).calls| ==> ItemNumbers(BatchWalk(b).events)[x] == b.arg + x
  {
    BatchWellNumbered(b);
    CountPerProcessedLink(CheckerOf(b), b.arg, Checks(b));
    ItemNumbersAppend(BatchWalk(b).events, AllDone);
  }

  /** A set cancel flag stops the batch at that check: no later item is fetched or counted. */
  lemma CancelStopsBatch(b: Batch, j: nat)
    requires j < Checks(b) && Walk(CheckerOf(b), b.arg, j).stop.None? && b.cancel(j)
    ensures BatchWalk(b).stop == Some(Cancelled)
    ensures BatchWalk(b).calls == Walk(CheckerOf(b), b.arg, j).calls
    ensures BatchWalk(b).count == Walk(CheckerOf(b), b.arg, j).count
    ensures BatchEvents(b) == Walk(CheckerOf(b), b.arg, j).events + [Stopped, AllDone]
  {
    var s := Walk(CheckerOf(b), b.arg, j);
    assert CheckerOf(b)(j, s.count, s.last) == Halt(Stopped, Cancelled);
    WalkHalts(CheckerOf(b), b.arg, j, Checks(b));
  }

  /** Two checkers that agree on the first k checks give the same first k steps. */
  lemma {:induction false} WalkOfAgreeing(check: Checker, check': Checker, arg: int, k: nat)
    requires forall j: nat, count, last :: j < k ==> check(j, count, last) == check'(j, count, last)
    ensures Walk(check, arg, k) == Walk(check', arg, k)
  {
    if k > 0 {
      WalkOfAgreeing(check, check', arg, k - 1);
    }
  }

  /** Two batches that differ only in the cancel flag agree on a check where the flag agrees. */
  lemma CheckReadsCancelAt(b: Batch, b': Batch, j: nat, count: int, last: Option<string>)
    requires b'.links == b.links && b'.arg == b.arg && b'.credit == b.credit && b'.world == b.world
    requires b.cancel(j) == b'.cancel(j)
    ensures CheckOutcome(b, j, count, last) == CheckOutcome(b', j, count, last)
  {
    if !b.cancel(j) {
      var w := b.world(j);
      assert b'.world(j) == w;
    }
  }

  /** The first k checks read the cancel flag only at checks 0 to k-1. */
  lemma WalkReadsCancelBelow(b: Batch, b': Batch, k: nat)
    requires b'.links == b.links && b'.arg == b.arg && b'.credit == b.credit && b'.world == b.world
    requires forall j :: 0 <= j < k ==> b.cancel(j) == b'.cancel(j)
    ensures Walk(CheckerOf(b), b.arg, k) == Walk(CheckerOf(b'), b'.arg, k)
  {
    forall j: nat, count, last | j < k
      ensures CheckerOf(b)(j, count, last) == CheckerOf(b')(j, count, last)
    {
      CheckReadsCancelAt(b, b', j, count, last);
    }
    WalkOfAgreeing(CheckerOf(b), CheckerOf(b'), b.arg, k);
  }

  /**
   * A cancel requested after the last check is never read: the batch's
   * replies, calls and counter are those of a batch without it, and
   * `RunBatch` leaves it set.
   */
  lemma LateCancelUnread(b: Batch, b': Batch)
    requires b'.links == b.links && b'.arg == b.arg && b'.credit == b.credit && b'.world == b.world
    requires forall j :: 0 <= j < Checks(b) ==> b.cancel(j) == b'.cancel(j)
    ensures BatchWalk(b') == BatchWalk(b)
    ensures BatchEvents(b') == BatchEvents(b)
  {
    assert Checks(b') == Checks(b);
    WalkReadsCancelBelow(b, b', Checks(b));
  }

  /** A check that halts ends the walk: its event is the last one. */
  lemma WalkHalts(check: Checker, arg: int, j: nat, m: nat)
    requires j < m && Walk(check, arg, j).stop.None?
    requires check(j, Walk(check, arg, j).count, Walk(check, arg, j).last).Halt?
    ensures var s := Walk(check, arg, j); var o := check(j, s.count, s.last);
      Walk(check, arg, m) == s.(events := s.events + [o.event], stop := Some(o.reason))
  {
    WalkStopped(check, arg, j + 1, m);
  }

  /**
   * Items are visited in increasing index order: when the j-th check adds
   * a call, the cancel flag was clear and the call is for the link at Python
   * index `arg - 1 + j`.
   */
  lemma VisitsInOrder(b: Batch, j: nat)
    requires Walk(CheckerOf(b), b.arg, j).stop.None?
    requires |Walk(CheckerOf(b), b.arg, j + 1).calls| > |Walk(CheckerOf(b), b.arg, j).calls|
    ensures !b.cancel(j) && -|b.links| <= b.arg - 1 + j < |b.links|
    ensures Walk(CheckerOf(b), b.arg, j + 1).calls
      == Walk(CheckerOf(b), b.arg, j).calls + [ToolCall(AudioUrl(b.links[PyIndex(b.arg - 1 + j, |b.links|)].1),
                                                         Walk(CheckerOf(b), b.arg, j + 1).calls[|Walk(CheckerOf(b), b.arg, j).calls|].output)]
  {
  }

  /** A link whose URL holds neither "youtube.com" nor "youtu.be" is skipped: no call, no reply, no count. */
  lemma NonYouTubeLinkSkipped(b: Batch, j: nat)
    requires Walk(CheckerOf(b), b.arg, j).stop.None? && !b.cancel(j)
    requires -|b.links| <= b.arg - 1 + j < |b.links| && !b.world(j).lookup.TitleNull?
    requires !IsYouTubeLink(AudioUrl(b.links[PyIndex(b.arg - 1 + j, |b.links|)].1))
    ensures Walk(CheckerOf(b), b.arg, j + 1) == Walk(CheckerOf(b), b.arg, j)
  {
  }

  /** Every call of the checker is for a YouTube link and writes to a clean file name. */
  ghost predicate SafeCalls(check: Checker, credit: string) {
    forall j: nat, count: int, last: Option<string> {:trigger check(j, count, last)} ::
      check(j, count, last).Processed? ==>
        IsYouTubeLink(check(j, count, last).call.url) && CleanOutput(check(j, count, last).call.output, credit)
  }

  lemma BatchSafeCalls(b: Batch)
    ensures SafeCalls(CheckerOf(b), b.credit)
  {
    forall j: nat, count: int, last: Option<string> | CheckerOf(b)(j, count, last).Processed?
      ensures CleanOutput(CheckerOf(b)(j, count, last).call.output, b.credit)
    {
      BuildNamesShape(LookupTitle(b.world(j).lookup).value, b.credit);
    }
  }

  lemma {:induction false} WalkCallsSafe(check: Checker, arg: int, credit: string, k: nat)
    requires SafeCalls(check, credit)
    ensures forall c :: c in Walk(check, arg, k).calls ==> IsYouTubeLink(c.url) && CleanOutput(c.output, credit)
  {
    if k > 0 {
      WalkCallsSafe(check, arg, credit, k - 1);
    }
  }

  /** Every yt-dlp call of the batch is for a YouTube link and writes to a clean file name. */
  lemma CallsAreSafe(b: Batch)
    ensures forall c :: c in BatchWalk(b).calls ==> IsYouTubeLink(c.url) && CleanOutput(c.output, b.credit)
  {
    BatchSafeCalls(b);
    WalkCallsSafe(CheckerOf(b), b.arg, b.credit, Checks(b));
  }

  // ---------------------------------------------------------------------------
  // The handler
  // ---------------------------------------------------------------------------

  /**
   * The message the handler listens for. A `.txt` document carries the file's
   * content (None when reading it fails) and the start the user then sends
   * (None when it is not a decimal integer); a text message carries its text.
   */
  datatype Request =
    | TextFile(content: Option<string>, start: Option<int>)
    | TextMessage(text: string)
    | Unsupported

  /** The replies that end the handler before the batch starts. */
  datatype EarlyEnd =
    | NoLinksInFile      // "No valid YouTube URLs found in the file."
    | NoLinksInText      // "No valid YouTube URLs found in the text."
    | InvalidFileInput   // the file could not be read
    | InvalidInput       // neither a .txt document nor text
    | StartNotANumber    // `int(raw_text)` raises and nothing catches it

  /** Where the request leads: an early end, or a batch. */
  datatype Plan = Early(end: EarlyEnd) | Run(batch: Batch)

  /** The text the links are harvested from, when the request has one that could be read. */
  function RequestText(req: Request): Option<string> {
    match req
    case TextFile(content, _) => content
    case TextMessage(text) => Some(text)
    case Unsupported => None
  }

  /** Lines 103-185: from the request to the batch's inputs. */
  function PlanOf(req: Request, credit: string, cancel: nat -> bool, world: nat -> ItemWorld): (p: Plan)
    ensures req.Unsupported? ==> p == Early(InvalidInput)
    ensures req.TextFile? && req.content.None? ==> p == Early(InvalidFileInput)
    ensures RequestText(req).Some? ==>
      (p.Early? && p.end in {NoLinksInFile, NoLinksInText} <==> |Harvest(RequestText(req).value, |HarvestPatterns|)| == 0)
    ensures p == Early(StartNotANumber) <==> req.TextFile? && req.content.Some? && req.start.None?
                                             && |Harvest(req.content.value, |HarvestPatterns|)| > 0
    ensures p.Run? ==> (RequestText(req).Some? &&
      var urls := Harvest(RequestText(req).value, |HarvestPatterns|);
      |p.batch.links| == |urls| > 0 &&
      forall i :: 0 <= i < |urls| ==> LinkParts(urls[i]) == Some(p.batch.links[i]))
    ensures p.Run? ==> p.batch.credit == credit && p.batch.cancel == cancel && p.batch.world == world
    ensures p.Run? && req.TextMessage? ==> p.batch.arg == 1
    ensures p.Run? && req.TextFile? ==> p.batch.arg == req.start.value
  {
    match req
    case Unsupported => Early(InvalidInput)
    case TextFile(content, start) =>
      if content.None? then Early(InvalidFileInput)
      else
        var urls := Harvest(content.value, |HarvestPatterns|);
        HarvestedLinksAllKept(content.value, |HarvestPatterns|);
        var links := Links(urls);
        if |links| == 0 then Early(NoLinksInFile)
        else if start.None? then Early(StartNotANumber)
        else Run(Batch(links, start.value, credit, cancel, world))
    case TextMessage(text) =>
      var urls := Harvest(text, |HarvestPatterns|);
      HarvestedLinksAllKept(text, |HarvestPatterns|);
      var links := Links(urls);
      if |links| == 0 then Early(NoLinksInText)
      else Run(Batch(links, 1, credit, cancel, world))
  }

  /** How the handler ends: early, or after the batch with its replies, calls and final counter. */
  datatype HandlerEnd =
    | EndedEarly(end: EarlyEnd)
    | Batched(events: seq<Event>, calls: seq<ToolCall>, count: int)

  /** `ytm_handler` (lines 94-272). */
  method YtmHandler(flags: SharedFlags, req: Request, credit: string, cancel: nat -> bool, world: nat -> ItemWorld)
    returns (r: HandlerEnd)
    modifies flags
    ensures PlanOf(req, credit, cancel, world).Early? ==> r == EndedEarly(PlanOf(req, credit, cancel, world).end)
    ensures PlanOf(req, credit, cancel, world).Run? ==>
      var b := PlanOf(req, credit, cancel, world).batch;
      r == Batched(BatchEvents(b), BatchWalk(b).calls, BatchWalk(b).count)
    ensures r.EndedEarly? ==> flags.processingRequest && !flags.cancelRequested
    ensures PlanOf(req, credit, cancel, world).Run? ==>
      var b := PlanOf(req, credit, cancel, world).batch;
      !flags.processingRequest && flags.cancelRequested == (cancel(Checks(b)) && BatchWalk(b).stop != Some(Cancelled))
  {
    flags.Begin();
    var b: Batch;
    match req {
      case Unsupported =>
        return EndedEarly(InvalidInput);
      case TextFile(content, start) =>
        if content.None? {
          return EndedEarly(InvalidFileInput);
        }
        var urls := ExtractYoutubeUrls(content.value);
        var links := CollectLinks(urls);
        if |links| == 0 {
          return EndedEarly(NoLinksInFile);
        }
        if start.None? {
          return EndedEarly(StartNotANumber);
        }
        b := Batch(links, start.value, credit, cancel, world);
      case TextMessage(text) =>
        var urls := ExtractYoutubeUrls(text);
        var links := CollectLinks(urls);
        if |links| == 0 {
          return EndedEarly(NoLinksInText);
        }
        b := Batch(links, 1, credit, cancel, world);
    }
    var events, calls, count := RunBatch(flags, b);
    r := Batched(events, calls, count);
  }
}
