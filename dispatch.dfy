/** The request queue: records waiting to be sent to the data-entry
    service, drained one at a time in arrival order, with the counters that
    `getQueueStatus` reports. The call to the service is not part of the
    model: its outcome for each request (returned at some time, or threw an
    error) is supplied. */
module Dispatch {
  import opened Options
  import opened Text
  import opened Records

  /** A queued request. `id` and `addedAt` stand for the values the code
      takes from the clock and the random generator; `original` names the
      chat message the request answers. */
  datatype Item = Item(id: int, chatId: string, finalData: Record, original: string, addedAt: int)

  /** What the call to the service did with a request. `sendToPython`
      catches the errors of the service call itself and answers the chat
      on its own, then returns normally, so `Returned` covers a success and
      a reported service error alike, and is the case after which the
      request counts as processed. `Threw` is a call that threw past that
      handler (sending its own error reply failed, say). */
  datatype Outcome = Returned(at: int) | Threw(message: string)

  /** The reply sent to the chat when request number `position` fails,
      quoting the message the request answers. */
  datatype Notice = Notice(chatId: string, position: nat, error: string, quoted: string)

  /** `error.message || 'Unknown error'`. */
  function ErrorText(message: string): string {
    if message == "" then "Unknown error" else message
  }

  const FailureHead := "❌ *Processing Failed*\n\nRequest #"

  /** What follows the request number in a failure reply. */
  function FailureTail(error: string): string {
    " failed to process.\n\nError: " + ErrorText(error) + "\n\n🔄 You can try again with a new \"ap kara\" command."
  }

  /** The text of a failure reply. */
  function FailureText(n: Notice): (text: string)
    ensures StartsWith(text, FailureHead)
  {
    FailureHead + NatToString(n.position) + FailureTail(n.error)
  }

  /** `text[lo..m]` is a run of decimal digits worth `value`, and `rest`
      follows it. */
  predicate NumberThen(text: string, lo: nat, m: nat, value: nat, rest: string) {
    lo < m <= |text| && (forall i :: lo <= i < m ==> IsDigit(text[i]))
    && DigitsValue(text[lo..m]) == value && text[m..] == rest
  }

  /** A failure reply reads back as the request number in decimal, then the
      error text, or `Unknown error` when the error has no message. */
  lemma FailureTextNamesRequest(n: Notice)
    ensures exists m: nat :: NumberThen(FailureText(n), |FailureHead|, m, n.position, FailureTail(n.error))
    ensures FailureTail(n.error)[0] == ' '
    ensures n.error != "" ==> Contains(FailureTail(n.error), n.error)
    ensures n.error == "" ==> Contains(FailureTail(n.error), "Unknown error")
  {
    var digits := NatToString(n.position);
    var text := FailureText(n);
    var m := |FailureHead| + |digits|;
    NatToStringValue(n.position);
    assert text[|FailureHead|..m] == digits;
    assert text[m..] == FailureTail(n.error);
    assert NumberThen(text, |FailureHead|, m, n.position, FailureTail(n.error));
    var pre := " failed to process.\n\nError: ";
    var e := ErrorText(n.error);
    assert FailureTail(n.error)[|pre|..|pre| + |e|] == e;
    assert OccursAt(FailureTail(n.error), e, |pre|);
  }

  /** The number of requests whose call returned. */
  function CountReturned(items: seq<Item>, outcome: Item -> Outcome): nat {
    if items == [] then 0
    else CountReturned(items[..|items| - 1], outcome) + (if outcome(items[|items| - 1]).Returned? then 1 else 0)
  }

  /** The number of requests whose call threw. */
  function CountThrew(items: seq<Item>, outcome: Item -> Outcome): nat {
    if items == [] then 0
    else CountThrew(items[..|items| - 1], outcome) + (if outcome(items[|items| - 1]).Threw? then 1 else 0)
  }

  /** The time of the last returned call, or `last` if none returned. */
  function LastReturnedAt(items: seq<Item>, outcome: Item -> Outcome, last: Option<int>): Option<int> {
    if items == [] then last
    else match outcome(items[|items| - 1])
      case Returned(at) => Some(at)
      case Threw(_) => LastReturnedAt(items[..|items| - 1], outcome, last)
  }

  /** The failure replies for `items`, processed as requests `base + 1`,
      `base + 2`, ...; a reply needs the socket and a chat id. */
  function FailureNotices(items: seq<Item>, outcome: Item -> Outcome, base: nat, socketReady: bool): seq<Notice> {
    if items == [] then []
    else
      var item := items[|items| - 1];
      FailureNotices(items[..|items| - 1], outcome, base, socketReady)
        + match outcome(item)
          case Threw(message) =>
            if socketReady && item.chatId != "" then [Notice(item.chatId, base + |items|, message, item.original)] else []
          case Returned(_) => []
  }

  /** Every processed request either returned or threw. */
  lemma {:induction false} ReturnedPlusThrew(items: seq<Item>, outcome: Item -> Outcome)
    ensures CountReturned(items, outcome) + CountThrew(items, outcome) == |items|
    decreases |items|
  {
    if items != [] { ReturnedPlusThrew(items[..|items| - 1], outcome); }
  }

  /** With the socket up and every request carrying a chat id, each failed
      request, and only those, gets one reply, addressed to its own chat. */
  lemma {:induction false} OneNoticePerFailure(items: seq<Item>, outcome: Item -> Outcome, base: nat)
    requires forall k :: 0 <= k < |items| ==> items[k].chatId != ""
    ensures |FailureNotices(items, outcome, base, true)| == CountThrew(items, outcome)
    ensures forall n :: n in FailureNotices(items, outcome, base, true) ==>
              exists k :: 0 <= k < |items| && outcome(items[k]).Threw? && n.chatId == items[k].chatId
    decreases |items|
  {
    if items != [] {
      var init := items[..|items| - 1];
      assert forall k :: 0 <= k < |init| ==> init[k] == items[k];
      OneNoticePerFailure(init, outcome, base);
    }
  }

  /** A failure reply names the request by the number it was taken under:
      reply `Request #p` is about the request taken `p - base`-th, which
      threw, and goes to that request's chat, quoting its message. */
  lemma {:induction false} NoticeNamesItsRequest(items: seq<Item>, outcome: Item -> Outcome, base: nat, socketReady: bool)
    ensures forall n :: n in FailureNotices(items, outcome, base, socketReady) ==>
              && base < n.position <= base + |items|
              && var item := items[n.position - base - 1];
                 outcome(item) == Threw(n.error) && item.chatId == n.chatId && item.original == n.quoted
    decreases |items|
  {
    if items != [] {
      var init := items[..|items| - 1];
      NoticeNamesItsRequest(init, outcome, base, socketReady);
      assert forall k :: 0 <= k < |init| ==> init[k] == items[k];
    }
  }

  /** Without the socket no reply is sent. */
  lemma {:induction false} NoSocketNoNotice(items: seq<Item>, outcome: Item -> Outcome, base: nat)
    ensures FailureNotices(items, outcome, base, false) == []
    decreases |items|
  {
    if items != [] { NoSocketNoNotice(items[..|items| - 1], outcome, base); }
  }

  /** `items[k]` returned at `at`, and every later request threw. */
  predicate LastReturnedIndex(items: seq<Item>, outcome: Item -> Outcome, k: int, at: int) {
    0 <= k < |items| && outcome(items[k]) == Returned(at)
    && forall j :: k < j < |items| ==> outcome(items[j]).Threw?
  }

  /** The last returned time is the time of the last returned call, unless
      none returned. */
  lemma {:induction false} LastReturnedAtIsReturned(items: seq<Item>, outcome: Item -> Outcome, last: Option<int>)
    ensures CountReturned(items, outcome) == 0 ==> LastReturnedAt(items, outcome, last) == last
    ensures CountReturned(items, outcome) > 0 ==> LastReturnedAt(items, outcome, last).Some?
    ensures CountReturned(items, outcome) > 0 ==>
              exists k :: LastReturnedIndex(items, outcome, k, LastReturnedAt(items, outcome, last).value)
    decreases |items|
  {
    if items != [] {
      var init := items[..|items| - 1];
      LastReturnedAtIsReturned(init, outcome, last);
      if outcome(items[|items| - 1]).Returned? {
        assert LastReturnedIndex(items, outcome, |items| - 1, LastReturnedAt(items, outcome, last).value);
      } else if CountReturned(items, outcome) > 0 {
        assert CountReturned(init, outcome) > 0;
        var at := LastReturnedAt(init, outcome, last).value;
        var k :| LastReturnedIndex(init, outcome, k, at);
        assert forall j :: k < j < |init| ==> items[j] == init[j];
        assert LastReturnedIndex(items, outcome, k, at);
      }
    }
  }

  /** One more processed request, as the drain loop sees it. */
  lemma SnocSpecs(done: seq<Item>, x: Item, outcome: Item -> Outcome, base: nat, socketReady: bool, last: Option<int>)
    ensures (done + [x])[..|done|] == done && (done + [x])[|done|] == x
    ensures CountReturned(done + [x], outcome) == CountReturned(done, outcome) + (if outcome(x).Returned? then 1 else 0)
    ensures LastReturnedAt(done + [x], outcome, last) ==
              if outcome(x).Returned? then Some(outcome(x).at) else LastReturnedAt(done, outcome, last)
    ensures FailureNotices(done + [x], outcome, base, socketReady) ==
              FailureNotices(done, outcome, base, socketReady)
                + if outcome(x).Threw? && socketReady && x.chatId != ""
                  then [Notice(x.chatId, base + |done| + 1, outcome(x).message, x.original)] else []
  {
    assert (done + [x])[..|done|] == done;
  }

  /** A request whose failure reply is due (it threw, the socket is up and
      it has a chat id) and whose reply cannot be sent either:
      `delivered(item)` is false when that send throws. */
  predicate ReplyThrows(item: Item, outcome: Item -> Outcome, socketReady: bool, delivered: Item -> bool) {
    outcome(item).Threw? && socketReady && item.chatId != "" && !delivered(item)
  }

  /** Whether the drain as written is cut short: some request's failure
      reply throws. */
  predicate AbortsAsWritten(items: seq<Item>, outcome: Item -> Outcome, socketReady: bool, delivered: Item -> bool)
    decreases |items|
  {
    items != [] && (ReplyThrows(items[0], outcome, socketReady, delivered)
                    || AbortsAsWritten(items[1..], outcome, socketReady, delivered))
  }

  /** How many requests the drain as written takes: all of them, or up to
      and including the first whose failure reply throws. */
  function TakenAsWritten(items: seq<Item>, outcome: Item -> Outcome, socketReady: bool, delivered: Item -> bool): nat
    decreases |items|
  {
    if items == [] then 0
    else if ReplyThrows(items[0], outcome, socketReady, delivered) then 1
    else 1 + TakenAsWritten(items[1..], outcome, socketReady, delivered)
  }

  /** The drain as written stops exactly at the first request whose failure
      reply throws, after taking it, and takes every request when there is
      none. */
  lemma {:induction false} AbortMeaning(items: seq<Item>, outcome: Item -> Outcome, socketReady: bool, delivered: Item -> bool)
    ensures var n := TakenAsWritten(items, outcome, socketReady, delivered);
            && n <= |items|
            && (AbortsAsWritten(items, outcome, socketReady, delivered) <==>
                  exists k :: 0 <= k < |items| && ReplyThrows(items[k], outcome, socketReady, delivered))
            && (!AbortsAsWritten(items, outcome, socketReady, delivered) ==> n == |items|)
            && (AbortsAsWritten(items, outcome, socketReady, delivered) ==>
                  && 1 <= n && ReplyThrows(items[n - 1], outcome, socketReady, delivered)
                  && forall k :: 0 <= k < n - 1 ==> !ReplyThrows(items[k], outcome, socketReady, delivered))
    decreases |items|
  {
    if items != [] {
      var rest := items[1..];
      AbortMeaning(rest, outcome, socketReady, delivered);
      assert forall k :: 0 <= k < |rest| ==> rest[k] == items[k + 1];
      if !ReplyThrows(items[0], outcome, socketReady, delivered) && AbortsAsWritten(rest, outcome, socketReady, delivered) {
        var k :| 0 <= k < |rest| && ReplyThrows(rest[k], outcome, socketReady, delivered);
        assert ReplyThrows(items[k + 1], outcome, socketReady, delivered);
      }
      if (exists k :: 0 <= k < |items| && ReplyThrows(items[k], outcome, socketReady, delivered))
         && !ReplyThrows(items[0], outcome, socketReady, delivered) {
        var k :| 0 <= k < |items| && ReplyThrows(items[k], outcome, socketReady, delivered);
        assert ReplyThrows(rest[k - 1], outcome, socketReady, delivered);
      }
    }
  }

  lemma TakenBound(items: seq<Item>, outcome: Item -> Outcome, socketReady: bool, delivered: Item -> bool)
    ensures TakenAsWritten(items, outcome, socketReady, delivered) <= |items|
    ensures !AbortsAsWritten(items, outcome, socketReady, delivered) ==>
              TakenAsWritten(items, outcome, socketReady, delivered) == |items|
  {
    AbortMeaning(items, outcome, socketReady, delivered);
  }

  /** Request `i` of those the drain as written takes ends it exactly when
      it is the last one taken and the drain is cut short. */
  lemma AbortStep(items: seq<Item>, i: nat, outcome: Item -> Outcome, socketReady: bool, delivered: Item -> bool)
    requires i < TakenAsWritten(items, outcome, socketReady, delivered)
    ensures i < |items|
    ensures ReplyThrows(items[i], outcome, socketReady, delivered) <==>
              AbortsAsWritten(items, outcome, socketReady, delivered)
              && i + 1 == TakenAsWritten(items, outcome, socketReady, delivered)
  {
    AbortMeaning(items, outcome, socketReady, delivered);
    if ReplyThrows(items[i], outcome, socketReady, delivered) {
      assert exists k :: 0 <= k < |items| && ReplyThrows(items[k], outcome, socketReady, delivered);
    }
  }

  /** What `getQueueStatus` returns. */
  datatype Status = Status(
    totalProcessed: nat, currentPosition: nat, lastProcessedAt: Option<int>,
    queueLength: nat, isProcessing: bool, nextRequest: Option<(string, int)>)

  class RequestQueue {
    var items: seq<Item>
    var isProcessing: bool
    var totalProcessed: nat
    var currentPosition: nat
    var lastProcessedAt: Option<int>

    /** Requests are numbered as they are taken, so no more can have
        returned than have been taken, and a completion time exists only
        once one has. */
    predicate Valid()
      reads this
    {
      totalProcessed <= currentPosition && (lastProcessedAt.Some? ==> totalProcessed > 0)
    }

    constructor()
      ensures Valid()
      ensures items == [] && !isProcessing && totalProcessed == 0 && currentPosition == 0 && lastProcessedAt == None
    {
      items := [];
      isProcessing := false;
      totalProcessed := 0;
      currentPosition := 0;
      lastProcessedAt := None;
    }

    /** `addToQueue`: the request goes to the tail; the position reported
        is its 0-based index, the new length minus one, whether or not the
        queue is being drained. */
    method AddToQueue(chatId: string, finalData: Record, original: string, id: int, addedAt: int)
      returns (position: nat)
      requires Valid()
      modifies this
      ensures Valid()
      ensures items == old(items) + [Item(id, chatId, finalData, original, addedAt)]
      ensures position == |old(items)| && items[position] == Item(id, chatId, finalData, original, addedAt)
      ensures isProcessing == old(isProcessing) && totalProcessed == old(totalProcessed)
      ensures currentPosition == old(currentPosition) && lastProcessedAt == old(lastProcessedAt)
    {
      items := items + [Item(id, chatId, finalData, original, addedAt)];
      if isProcessing {
        position := |items| - 1;
      } else {
        position := |items| - 1;
      }
    }

    /** `processQueue` as the queue is meant to work: does nothing while a
        drain is running or when the queue is empty; otherwise takes every
        waiting request in arrival order, numbers it, counts it as
        processed only when the call returned, and sends a failure reply
        when it threw. A failure reply that cannot be sent does not stop
        the drain, so every drain ends with the queue empty and the flag
        clear. `ProcessQueueAsWritten` is the code as it stands, where it
        does stop. */
    method ProcessQueue(outcome: Item -> Outcome, socketReady: bool)
      returns (dispatched: seq<Item>, notices: seq<Notice>)
      requires Valid()
      modifies this
      ensures Valid()
      ensures old(isProcessing) || old(items) == [] ==>
                && dispatched == [] && notices == []
                && items == old(items) && isProcessing == old(isProcessing)
                && totalProcessed == old(totalProcessed) && currentPosition == old(currentPosition)
                && lastProcessedAt == old(lastProcessedAt)
      ensures !old(isProcessing) && old(items) != [] ==>
                && dispatched == old(items) && items == [] && !isProcessing
                && currentPosition == old(currentPosition) + |old(items)|
                && totalProcessed == old(totalProcessed) + CountReturned(old(items), outcome)
                && lastProcessedAt == LastReturnedAt(old(items), outcome, old(lastProcessedAt))
                && notices == FailureNotices(old(items), outcome, old(currentPosition), socketReady)
    {
      dispatched, notices := [], [];
      if isProcessing || |items| == 0 {
        return;
      }
      isProcessing := true;
      dispatched, notices := Drain(outcome, socketReady);
      isProcessing := false;
    }

    /** `processQueue` exactly as written, where the failure reply of
        lines 78-81 is awaited outside any `try`: when that send throws
        (`delivered` is false for the request), the exception leaves the
        loop, so the request counts as taken, the rest stay queued and
        `isProcessing` is never cleared. Otherwise it behaves as
        `ProcessQueue`. */
    method ProcessQueueAsWritten(outcome: Item -> Outcome, socketReady: bool, delivered: Item -> bool)
      returns (dispatched: seq<Item>, notices: seq<Notice>, aborted: bool)
      requires Valid()
      modifies this
      ensures Valid()
      ensures old(isProcessing) || old(items) == [] ==>
                && dispatched == [] && notices == [] && !aborted
                && items == old(items) && isProcessing == old(isProcessing)
                && totalProcessed == old(totalProcessed) && currentPosition == old(currentPosition)
                && lastProcessedAt == old(lastProcessedAt)
      ensures !old(isProcessing) && old(items) != [] ==>
                var n := TakenAsWritten(old(items), outcome, socketReady, delivered);
                && n <= |old(items)|
                && dispatched == old(items)[..n] && items == old(items)[n..]
                && aborted == AbortsAsWritten(old(items), outcome, socketReady, delivered)
                && isProcessing == aborted
                && currentPosition == old(currentPosition) + n
                && totalProcessed == old(totalProcessed) + CountReturned(dispatched, outcome)
                && lastProcessedAt == LastReturnedAt(dispatched, outcome, old(lastProcessedAt))
                && notices == FailureNotices(dispatched, outcome, old(currentPosition), socketReady)
    {
      dispatched, notices, aborted := [], [], false;
      if isProcessing || |items| == 0 {
        return;
      }
      isProcessing := true;
      dispatched, notices, aborted := DrainAsWritten(outcome, socketReady, delivered);
      if !aborted {
        isProcessing := false;
      }
    }

    /** The loop of `processQueue` as written: take the head request until
        none is left or a failure reply throws. */
    method DrainAsWritten(outcome: Item -> Outcome, socketReady: bool, delivered: Item -> bool)
      returns (dispatched: seq<Item>, notices: seq<Notice>, aborted: bool)
      requires Valid()
      modifies this
      ensures Valid()
      ensures var n := TakenAsWritten(old(items), outcome, socketReady, delivered);
              && n <= |old(items)|
              && dispatched == old(items)[..n] && items == old(items)[n..] && isProcessing == old(isProcessing)
              && aborted == AbortsAsWritten(old(items), outcome, socketReady, delivered)
              && currentPosition == old(currentPosition) + n
              && totalProcessed == old(totalProcessed) + CountReturned(dispatched, outcome)
              && lastProcessedAt == LastReturnedAt(dispatched, outcome, old(lastProcessedAt))
              && notices == FailureNotices(dispatched, outcome, old(currentPosition), socketReady)
    {
      dispatched, notices, aborted := [], [], false;
      ghost var all := items;
      ghost var base := currentPosition;
      ghost var done0 := totalProcessed;
      ghost var last0 := lastProcessedAt;
      ghost var n := TakenAsWritten(all, outcome, socketReady, delivered);
      ghost var aborts := AbortsAsWritten(all, outcome, socketReady, delivered);
      TakenBound(all, outcome, socketReady, delivered);
      ghost var i := 0;
      while |items| > 0 && !aborted
        invariant i <= n && dispatched == all[..i] && items == all[i..]
        invariant isProcessing == old(isProcessing)
        invariant currentPosition == base + i
        invariant totalProcessed == done0 + CountReturned(dispatched, outcome)
        invariant lastProcessedAt == LastReturnedAt(dispatched, outcome, last0)
        invariant notices == FailureNotices(dispatched, outcome, base, socketReady)
        invariant aborted <==> aborts && i == n
        invariant Valid()
        decreases |items|
      {
        AbortStep(all, i, outcome, socketReady, delivered);
        var request, notice := TakeNext(outcome, socketReady);
        SnocSpecs(dispatched, request, outcome, base, socketReady, last0);
        assert all[..i + 1] == all[..i] + [request];
        dispatched := dispatched + [request];
        notices := notices + notice;
        i := i + 1;
        // the reply just attempted throws out of the loop
        aborted := ReplyThrows(request, outcome, socketReady, delivered);
      }
    }

    /** The drain loop of `processQueue`: take the head request until none
        is left. */
    method Drain(outcome: Item -> Outcome, socketReady: bool)
      returns (dispatched: seq<Item>, notices: seq<Notice>)
      requires Valid()
      modifies this
      ensures Valid()
      ensures dispatched == old(items) && items == [] && isProcessing == old(isProcessing)
      ensures currentPosition == old(currentPosition) + |old(items)|
      ensures totalProcessed == old(totalProcessed) + CountReturned(old(items), outcome)
      ensures lastProcessedAt == LastReturnedAt(old(items), outcome, old(lastProcessedAt))
      ensures notices == FailureNotices(old(items), outcome, old(currentPosition), socketReady)
    {
      dispatched, notices := [], [];
      ghost var all := items;
      ghost var base := currentPosition;
      ghost var done0 := totalProcessed;
      ghost var last0 := lastProcessedAt;
      ghost var i := 0;
      while |items| > 0
        invariant i <= |all| && dispatched == all[..i] && items == all[i..]
        invariant isProcessing == old(isProcessing)
        invariant currentPosition == base + i
        invariant totalProcessed == done0 + CountReturned(dispatched, outcome)
        invariant lastProcessedAt == LastReturnedAt(dispatched, outcome, last0)
        invariant notices == FailureNotices(dispatched, outcome, base, socketReady)
        invariant Valid()
        decreases |items|
      {
        var request, notice := TakeNext(outcome, socketReady);
        SnocSpecs(dispatched, request, outcome, base, socketReady, last0);
        assert all[..i + 1] == all[..i] + [request];
        dispatched := dispatched + [request];
        notices := notices + notice;
        i := i + 1;
      }
      assert dispatched == all;
    }

    /** One turn of the drain loop: take the head request and number it;
        count it and note the time when its call returned, or prepare its
        failure reply when it threw. */
    method TakeNext(outcome: Item -> Outcome, socketReady: bool) returns (request: Item, notice: seq<Notice>)
      requires Valid() && items != []
      modifies this
      ensures Valid()
      ensures request == old(items)[0] && items == old(items)[1..] && isProcessing == old(isProcessing)
      ensures currentPosition == old(currentPosition) + 1
      ensures totalProcessed == old(totalProcessed) + if outcome(request).Returned? then 1 else 0
      ensures lastProcessedAt == if outcome(request).Returned? then Some(outcome(request).at) else old(lastProcessedAt)
      ensures notice == if outcome(request).Threw? && socketReady && request.chatId != ""
                        then [Notice(request.chatId, currentPosition, outcome(request).message, request.original)]
                        else []
    {
      request := items[0];
      items := items[1..];
      currentPosition := currentPosition + 1;
      notice := [];
      match outcome(request) {
        case Returned(at) =>
          totalProcessed := totalProcessed + 1;
          lastProcessedAt := Some(at);
        case Threw(message) =>
          if socketReady && request.chatId != "" {
            notice := [Notice(request.chatId, currentPosition, message, request.original)];
          }
      }
    }

    /** `getQueueStatus`. In a valid queue no more requests are reported
        processed than have been taken. */
    function GetQueueStatus(): (s: Status)
      reads this
      ensures Valid() ==> s.totalProcessed <= s.currentPosition
      ensures Valid() && s.lastProcessedAt.Some? ==> s.totalProcessed > 0
      ensures s.queueLength == |items| && s.isProcessing == isProcessing
      ensures s.totalProcessed == totalProcessed && s.currentPosition == currentPosition
      ensures s.lastProcessedAt == lastProcessedAt
      ensures s.nextRequest.Some? <==> items != []
      ensures items != [] ==> s.nextRequest == Some((items[0].chatId, items[0].addedAt))
    {
      Status(totalProcessed, currentPosition, lastProcessedAt, |items|, isProcessing,
             if |items| > 0 then Some((items[0].chatId, items[0].addedAt)) else None)
    }

    /** The clear-queue route: drops every waiting request, reports how many
        there were and clears the processing flag; the counters stay. */
    method ClearQueue() returns (clearedCount: nat)
      requires Valid()
      modifies this
      ensures Valid()
      ensures clearedCount == |old(items)| && items == [] && !isProcessing
      ensures totalProcessed == old(totalProcessed) && currentPosition == old(currentPosition)
      ensures lastProcessedAt == old(lastProcessedAt)
    {
      clearedCount := |items|;
      items := [];
      isProcessing := false;
    }
  }

  /** The drain as written stalls: when the failure reply for the first of
      two requests cannot be sent, the second stays queued with the
      processing flag still set, and every later `processQueue` takes
      nothing. */
  method StalledDrainExample(a: Record, b: Record) returns (aborted: bool, left: nat, later: seq<Item>)
    ensures aborted && left == 1 && later == []
  {
    var q := new RequestQueue();
    var p := q.AddToQueue("chat-1", a, "m1", 1, 100);
    var r := q.AddToQueue("chat-2", b, "m2", 2, 200);
    var threw := (i: Item) => Threw("timeout");
    var unsent := (i: Item) => false;
    assert ReplyThrows(q.items[0], threw, true, unsent);
    var dispatched, notices;
    dispatched, notices, aborted := q.ProcessQueueAsWritten(threw, true, unsent);
    left := |q.items|;
    var again;
    later, notices, again := q.ProcessQueueAsWritten(threw, true, unsent);
  }

  /** Requests leave in the order they arrived: after two additions to an
      idle queue, a drain dispatches the earlier one first, then the later
      one. */
  method FifoExample(outcome: Item -> Outcome, a: Record, b: Record) returns (dispatched: seq<Item>)
    ensures |dispatched| == 2 && dispatched[0].finalData == a && dispatched[1].finalData == b
  {
    var q := new RequestQueue();
    var p := q.AddToQueue("chat-1", a, "m1", 1, 100);
    var r := q.AddToQueue("chat-2", b, "m2", 2, 200);
    assert p == 0 && r == 1;
    var notices;
    dispatched, notices := q.ProcessQueue(outcome, true);
    assert q.items == [] && q.currentPosition == 2;
  }
}
