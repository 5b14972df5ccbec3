/** `handleApKaraCommand`: read a message, build the dispatch record from
    the quoted message and the `ap kara` reply, normalise and check it, and
    either answer with what is missing or queue it for the data-entry
    service. The group checks in front of it and the transport are not part
    of this model: the message arrives as its chat id, key, text and quoted
    text. */
module Command {
  import opened Options
  import opened Text
  import opened Records
  import opened Extraction
  import opened Product
  import opened Driver
  import opened Validation
  import opened Dispatch
  import opened Contexts

  /** An incoming message: its text is the `conversation` or the extended
      text (`""` when it has neither); `quoted` is the quoted message, with
      its text (`""` when it has none), or `None` when it quotes nothing. */
  datatype Message = Message(chatId: string, key: string, text: string, quoted: Option<string>)

  /** What the handler does with a message. */
  datatype Decision =
    | NoText
    | NotAReply
    | NoQuotedText
    | Incomplete(missing: seq<Field>)
    | Accepted(data: Record)

  const NoTextReply: string := "❌ Could not extract text from the message"
  const NotAReplyReply: string := "❌ Please reply to a message with 'ap kara' command"
  const NoQuotedTextReply: string := "❌ Could not extract text from the original message"

  /** `messageText.toLowerCase().trim().startsWith('ap kara')`. */
  predicate IsApKara(text: string) {
    StartsWith(Trim(ToLower(text)), "ap kara")
  }

  /** The product named by a quoted message with text, if one is named. */
  function QuotedProduct(quoted: Option<string>): Option<string> {
    if quoted.Some? && quoted.value != "" && Truthy(ProductInfo(quoted.value)) then ProductInfo(quoted.value)
    else None
  }

  /** The driver found in the reply replaces the record's driver fields. */
  predicate Overrides(d: DriverInfo) {
    Truthy(d.name) || Truthy(d.license)
  }

  function Pick(extra: Option<string>, base: Option<string>): Option<string> {
    if extra.Some? then extra else base
  }

  /** Copying every non-null value of `extra` over `base`. */
  function Overlay(base: Record, extra: Record): (r: Record)
    ensures forall f :: Get(extra, f).Some? ==> Get(r, f) == Get(extra, f)
    ensures forall f :: Get(extra, f).None? ==> Get(r, f) == Get(base, f)
  {
    Record(Pick(extra.vehicleNum, base.vehicleNum), Pick(extra.destination, base.destination),
           Pick(extra.weight, base.weight), Pick(extra.soNo, base.soNo),
           Pick(extra.phoneNum, base.phoneNum), Pick(extra.driverLicense, base.driverLicense),
           Pick(extra.driverName, base.driverName), Pick(extra.productType, base.productType))
  }

  /** The driver block of the handler: when a name or a licence was found,
      both are stored and the fields found after the licence overwrite. */
  function WithDriver(data: Record, d: DriverInfo): Record {
    if Overrides(d) then Overlay(data.(driverName := d.name, driverLicense := d.license), d.additional)
    else data
  }

  /** The product named by the reply lines after the driver line. */
  function ReplyProduct(text: string): Option<string> {
    var lines := NonEmptyTrimmedLines(text);
    if |lines| > 2 then ProductInfo(JoinLines(lines[2..])) else None
  }

  /** What the handler's extractors report about a message: whether its
      text is an `ap kara` command, the product of the quoted text, the
      whole-message and per-line readings of the quoted text, the driver
      information of the reply and the product of its later lines. */
  datatype Readings = Readings(
    isApKara: bool, quotedProduct: Option<string>, whole: Record, byLines: Record,
    driver: DriverInfo, replyProduct: Option<string>)

  function ReadingsOf(text: string, quoted: Option<string>): Readings {
    var q := if quoted.Some? then quoted.value else "";
    Readings(IsApKara(text), QuotedProduct(quoted), if q != "" then WholeMessage(q).value else Empty,
             ByLines(q), DriverInfoOf(text), ReplyProduct(text))
  }

  /** The product of the reply lines replaces that of the quoted message
      when there is one. */
  function WithReplyProduct(data: Record, product: Option<string>): Record {
    if Truthy(product) then data.(productType := product) else data
  }

  /** `finalData` of an `ap kara` reply, before uppercasing: the merge of
      the quoted message's readings, then the driver block, then the reply's
      product. */
  function Assemble(r: Readings): Record {
    var merged := MergeExtractions(r.whole, r.byLines, r.quotedProduct);
    WithReplyProduct(WithDriver(merged, r.driver), r.replyProduct)
  }

  /** Uppercase, then validate. */
  function Checked(data: Record): Decision {
    var upper := Uppercased(data);
    var missing := MissingFields(upper);
    if missing != [] then Incomplete(missing) else Accepted(upper)
  }

  /** The handler's decision on a message with text `text` quoting `quoted`,
      given what the extractors report about it. */
  function Decide(text: string, quoted: Option<string>, r: Readings): Decision {
    if text == "" then NoText
    else if !r.isApKara then Checked(Empty.(productType := r.quotedProduct))
    else if quoted.None? then NotAReply
    else if quoted.value == "" then NoQuotedText
    else Checked(Assemble(r))
  }

  const QueuedHead: string := "⏳ *Processing* - Queue #"

  /** The reply sent for a decision; `position` is the queue position of an
      accepted request. A rejected record's reply lists, after its heading,
      exactly the labels of the missing fields, in order; an accepted one's
      ends in the queue position, written in decimal. */
  function ReplyText(d: Decision, position: nat): (reply: string)
    ensures d.Incomplete? ==> StartsWith(reply, MissingHead) && Unjoin(reply[|MissingHead|..]) == Labels(d.missing)
    ensures d.Incomplete? ==> forall k :: 0 <= k < |d.missing| ==> Contains(reply, FormatFieldName(d.missing[k]))
    ensures d.Accepted? ==> StartsWith(reply, QueuedHead) && NumberThen(reply, |QueuedHead|, |reply|, position, "")
  {
    match d
    case NoText => NoTextReply
    case NotAReply => NotAReplyReply
    case NoQuotedText => NoQuotedTextReply
    case Incomplete(missing) => MissingReply(missing)
    case Accepted(_) =>
      var reply := QueuedHead + NatToString(position);
      NatToStringValue(position);
      assert reply[|QueuedHead|..|reply|] == NatToString(position);
      reply
  }

  // ---------------------------------------------------------------------
  // What the decision means

  /** The handler answers early exactly in these three cases, whatever the
      extractors report. */
  lemma DecideEarlyReplies(text: string, quoted: Option<string>, r: Readings)
    ensures Decide(text, quoted, r) == NoText <==> text == ""
    ensures Decide(text, quoted, r) == NotAReply <==> text != "" && r.isApKara && quoted.None?
    ensures Decide(text, quoted, r) == NoQuotedText <==> text != "" && r.isApKara && quoted == Some("")
  {
  }

  /** A record is rejected exactly when a required field is missing, and the
      reply lists exactly those fields, in the declared order; an accepted
      record is the uppercased one, with all six required fields present. */
  lemma CheckedMeaning(data: Record)
    ensures Checked(data).Incomplete? <==> MissingFields(data) != []
    ensures Checked(data).Incomplete? ==>
              (forall f :: f in Checked(data).missing <==> f in RequiredFields && IsMissing(Get(data, f)))
              && InDeclaredOrder(Checked(data).missing)
    ensures Checked(data).Accepted? ==>
              Checked(data).data == Uppercased(data)
              && Uppercased(Checked(data).data) == Checked(data).data
              && forall f :: f in RequiredFields ==> !IsMissing(Get(Checked(data).data, f))
  {
    UppercasePreservesMissing(data);
    MissingFieldsMeaning(data);
    MissingFieldsMeaning(Uppercased(data));
    UppercaseShape(data, VehicleNum);
  }

  /** A record holding nothing but a product lacks all six required
      fields. */
  lemma ProductOnlyIsIncomplete(product: Option<string>)
    ensures Checked(Empty.(productType := product)) == Incomplete(RequiredFields)
  {
    var upper := Uppercased(Empty.(productType := product));
    assert forall f :: f != ProductType ==> Get(upper, f) == None;
    assert MissingAmong(upper, RequiredFields[5..]) == [SoNo];
    assert MissingAmong(upper, RequiredFields[4..]) == [Weight, SoNo];
    assert MissingAmong(upper, RequiredFields[3..]) == [VehicleNum, Weight, SoNo];
    assert MissingAmong(upper, RequiredFields[2..]) == [DriverLicense, VehicleNum, Weight, SoNo];
    assert MissingAmong(upper, RequiredFields[1..]) == [DriverName, DriverLicense, VehicleNum, Weight, SoNo];
  }

  /** A message that is not an `ap kara` command is never queued: all six
      required fields are reported. */
  lemma PlainMessageIsIncomplete(text: string, quoted: Option<string>, r: Readings)
    requires text != "" && !r.isApKara
    ensures Decide(text, quoted, r) == Incomplete(RequiredFields)
  {
    ProductOnlyIsIncomplete(r.quotedProduct);
  }

  /** The record of an `ap kara` reply: the driver's name and licence come
      from the reply when either was found (and are `null` otherwise); a
      transaction field takes the value read after the licence where there
      is one, else the quoted message's whole-message value, else its
      per-line value; the reply's product wins over the quoted one. */
  lemma AssembleMeaning(r: Readings)
    requires NoDriverFields(r.driver.additional)
    ensures Overrides(r.driver) ==> Assemble(r).driverName == r.driver.name && Assemble(r).driverLicense == r.driver.license
    ensures !Overrides(r.driver) ==> Assemble(r).driverName == None && Assemble(r).driverLicense == None
    ensures forall f :: f in TransactionFields ==>
              Get(Assemble(r), f) ==
                if Overrides(r.driver) && Get(r.driver.additional, f).Some? then Get(r.driver.additional, f)
                else OrElse(Get(r.whole, f), Get(r.byLines, f))
    ensures Assemble(r).productType == if Truthy(r.replyProduct) then r.replyProduct else r.quotedProduct
  {
    forall f | f in TransactionFields
      ensures Get(Assemble(r), f) ==
                if Overrides(r.driver) && Get(r.driver.additional, f).Some? then Get(r.driver.additional, f)
                else OrElse(Get(r.whole, f), Get(r.byLines, f))
    {
      assert f == VehicleNum || f == Destination || f == Weight || f == SoNo || f == PhoneNum;
    }
  }

  /** Uppercasing leaves a string of digits as it is. */
  lemma UpperDigits(s: string)
    requires forall i :: 0 <= i < |s| ==> IsDigit(s[i])
    ensures ToUpper(s) == s
  {
  }

  /** A decision to queue is taken only on an `ap kara` reply to a message
      with text, and is the check of the assembled record. */
  lemma AcceptedIsAssembled(text: string, quoted: Option<string>, r: Readings)
    requires Decide(text, quoted, r).Accepted?
    ensures r.isApKara && quoted.Some? && quoted.value != ""
    ensures Decide(text, quoted, r) == Checked(Assemble(r))
  {
    if !r.isApKara {
      PlainMessageIsIncomplete(text, quoted, r);
      assert false;
    }
  }

  /** An accepted record has a driver's name and licence, uppercased. */
  lemma AcceptedDriverFields(data: Record)
    requires Checked(data).Accepted?
    ensures data.driverLicense.Some? && data.driverName.Some?
    ensures Checked(data).data.driverLicense == UpperValue(data.driverLicense)
    ensures Checked(data).data.driverName == UpperValue(data.driverName)
  {
    var u := Uppercased(data);
    assert MissingFields(u) == [] && Checked(data).data == u;
    PresentWhenNoneMissing(u, DriverLicense);
    PresentWhenNoneMissing(u, DriverName);
    UppercasedGet(data, DriverLicense);
    UppercasedGet(data, DriverName);
  }

  /** The assembled record's driver fields are the reply's driver, when one
      was found, and `null` otherwise. */
  lemma AssembleDriver(r: Readings)
    requires NoDriverFields(r.driver.additional)
    ensures Overrides(r.driver) ==> Assemble(r).driverName == r.driver.name && Assemble(r).driverLicense == r.driver.license
    ensures !Overrides(r.driver) ==> Assemble(r).driverName == None && Assemble(r).driverLicense == None
  {
  }

  /** An accepted request is an `ap kara` reply to a message with text in
      which a driver was found; it carries that driver's name and licence,
      uppercased. */
  lemma AcceptedHasDriver(text: string, quoted: Option<string>, r: Readings)
    requires NoDriverFields(r.driver.additional)
    requires Decide(text, quoted, r).Accepted?
    ensures r.isApKara && quoted.Some? && quoted.value != ""
    ensures r.driver.license.Some? && r.driver.name.Some?
    ensures Decide(text, quoted, r).data.driverLicense == UpperValue(r.driver.license)
    ensures Decide(text, quoted, r).data.driverName == UpperValue(r.driver.name)
  {
    AcceptedIsAssembled(text, quoted, r);
    AcceptedDriverFields(Assemble(r));
    AssembleDriver(r);
  }

  /** With the handler's own driver reading of the reply's trimmed
      non-empty lines `lines`, a request is queued only when the second of
      them holds a four-digit licence, and the queued licence is those four
      digits. */
  lemma AcceptedLicenseIsFromDriverLine(text: string, quoted: Option<string>, r: Readings, lines: seq<string>)
    requires r.driver == DriverInfoOfLines(lines)
    requires Decide(text, quoted, r).Accepted?
    ensures |lines| >= 2
    ensures Decide(text, quoted, r).data.driverLicense == LicenseMatch(lines[1])
  {
    AcceptedHasDriver(text, quoted, r);
    UpperDigits(LicenseMatch(lines[1]).value);
  }

  // ---------------------------------------------------------------------
  // The handler

  /** The driver block: the `forEach` over the keys of `additional_data`. */
  method ApplyDriver(data: Record, d: DriverInfo) returns (r: Record)
    ensures r == WithDriver(data, d)
  {
    r := data;
    if Truthy(d.name) || Truthy(d.license) {
      var base := data.(driverName := d.name, driverLicense := d.license);
      r := base;
      for i := 0 to |AllFieldsInOrder|
        invariant forall k :: 0 <= k < i ==>
                    Get(r, AllFieldsInOrder[k]) == Pick(Get(d.additional, AllFieldsInOrder[k]), Get(base, AllFieldsInOrder[k]))
        invariant forall k :: i <= k < |AllFieldsInOrder| ==> Get(r, AllFieldsInOrder[k]) == Get(base, AllFieldsInOrder[k])
      {
        var key := AllFieldsInOrder[i];
        var value := Get(d.additional, key);
        if value.Some? {
          r := Set(r, key, value);
        }
      }
      forall f ensures Get(r, f) == Get(Overlay(base, d.additional), f) {
        AllFieldsListed(f);
      }
      RecordsAgree(r, Overlay(base, d.additional));
    }
  }

  /** The pure part of the handler, from the text check to validation. */
  method ReadCommand(text: string, quoted: Option<string>) returns (d: Decision)
    ensures d == Decide(text, quoted, ReadingsOf(text, quoted))
  {
    if text == "" {
      return NoText;
    }
    var product := QuotedProductOf(quoted);
    if !StartsWith(Trim(ToLower(text)), "ap kara") {
      d := CheckRecord(Empty.(productType := product));
      return;
    }
    if quoted.None? {
      return NotAReply;
    }
    var quotedText := quoted.value;
    if quotedText == "" {
      return NoQuotedText;
    }
    var finalData := ReadApKara(text, quotedText, product);
    d := CheckRecord(finalData);
  }

  /** The product block for the quoted message. */
  method QuotedProductOf(quoted: Option<string>) returns (product: Option<string>)
    ensures product == QuotedProduct(quoted)
  {
    product := None;
    if quoted.Some? && quoted.value != "" {
      var productInfo := ExtractProductInfo(quoted.value);
      if Truthy(productInfo) {
        product := productInfo;
      }
    }
  }

  /** Merge the readings of the quoted message, then apply the driver
      block and the reply's product. */
  method ReadApKara(text: string, quotedText: string, product: Option<string>) returns (finalData: Record)
    requires quotedText != "" && product == QuotedProduct(Some(quotedText))
    ensures finalData == Assemble(ReadingsOf(text, Some(quotedText)))
  {
    var originalData := ExtractDataFromMessage(quotedText);
    var originalLineBasedData := ExtractDataByLines(quotedText);
    finalData := MergeExtractions(originalData.value, originalLineBasedData, product);
    var driverInfo := ExtractDriverInfo(text);
    finalData := ApplyDriver(finalData, driverInfo);
    var replyProductInfo := ReplyProductOf(text);
    if Truthy(replyProductInfo) {
      finalData := finalData.(productType := replyProductInfo);
    }
  }

  /** The product block for the reply lines after the driver line. */
  method ReplyProductOf(text: string) returns (product: Option<string>)
    ensures product == ReplyProduct(text)
  {
    product := None;
    var replyLines := NonEmptyTrimmedLines(text);
    if |replyLines| > 2 {
      var afterDriverText := JoinLines(replyLines[2..]);
      product := ExtractProductInfo(afterDriverText);
    }
  }

  /** Uppercase, then validate. */
  method CheckRecord(data: Record) returns (d: Decision)
    ensures d == Checked(data)
  {
    var finalData := ConvertDataToUppercase(data);
    var missingFields := ValidateRequiredFields(finalData);
    if |missingFields| > 0 {
      return Incomplete(missingFields);
    }
    return Accepted(finalData);
  }

  /** The contexts after a drain: `sendToPython` stores each dispatched
      request's message as its chat's context, in dispatch order. */
  function RememberAll(m: map<string, Context>, items: seq<Item>, now: int): map<string, Context>
    decreases |items|
  {
    if items == [] then m
    else RememberAll(m, items[..|items| - 1], now)[items[|items| - 1].chatId := Context(items[|items| - 1].original, now)]
  }

  /** After a drain every dispatched chat has a fresh context, holding the
      message of its last dispatched request, and no other entry changes. */
  lemma {:induction false} RememberAllMeaning(m: map<string, Context>, items: seq<Item>, now: int)
    ensures forall k :: k in m ==> k in RememberAll(m, items, now)
    ensures forall j :: 0 <= j < |items| ==>
              items[j].chatId in RememberAll(m, items, now) && RememberAll(m, items, now)[items[j].chatId].timestamp == now
    ensures forall k :: k in RememberAll(m, items, now) ==>
              k in m || exists j :: 0 <= j < |items| && items[j].chatId == k
    ensures forall k :: k in m && (forall j :: 0 <= j < |items| ==> items[j].chatId != k) ==>
              RememberAll(m, items, now)[k] == m[k]
    ensures items != [] ==>
              RememberAll(m, items, now)[items[|items| - 1].chatId] == Context(items[|items| - 1].original, now)
    decreases |items|
  {
    if items != [] {
      var init := items[..|items| - 1];
      RememberAllMeaning(m, init, now);
      forall j | 0 <= j < |init| ensures init[j] == items[j] { }
    }
  }

  /** What the handler does once it has decided: reply; an accepted record
      is queued at the tail and the queue is drained unless a drain is
      already running, each dispatched request's message becoming its
      chat's context. The `Processing - Queue #` reply is awaited before
      the drain starts: when that send throws (`announced` is false), the
      handler's `catch` takes over, no drain starts, and the request waits
      in the queue for the next one. */
  method Respond(store: ContextStore, queue: RequestQueue, msg: Message, decision: Decision, now: int, id: int,
                 outcome: Item -> Outcome, socketReady: bool, announced: bool)
    returns (reply: string, dispatched: seq<Item>, notices: seq<Notice>)
    requires queue.Valid()
    modifies store, queue
    ensures queue.Valid()
    ensures !decision.Accepted? ==>
              && reply == ReplyText(decision, 0)
              && dispatched == [] && notices == []
              && store.contexts == old(store.contexts)
              && queue.items == old(queue.items) && queue.isProcessing == old(queue.isProcessing)
              && queue.totalProcessed == old(queue.totalProcessed)
              && queue.currentPosition == old(queue.currentPosition)
              && queue.lastProcessedAt == old(queue.lastProcessedAt)
    ensures decision.Accepted? ==>
              var waiting := old(queue.items) + [Item(id, msg.chatId, decision.data, msg.key, now)];
              && reply == ReplyText(decision, |old(queue.items)|)
              && (old(queue.isProcessing) || !announced ==>
                    && dispatched == [] && notices == [] && queue.items == waiting
                    && queue.isProcessing == old(queue.isProcessing) && queue.totalProcessed == old(queue.totalProcessed)
                    && queue.currentPosition == old(queue.currentPosition)
                    && queue.lastProcessedAt == old(queue.lastProcessedAt)
                    && store.contexts == old(store.contexts))
              && (!old(queue.isProcessing) && announced ==>
                    && dispatched == waiting && queue.items == [] && !queue.isProcessing
                    && queue.currentPosition == old(queue.currentPosition) + |waiting|
                    && queue.totalProcessed == old(queue.totalProcessed) + CountReturned(waiting, outcome)
                    && queue.lastProcessedAt == LastReturnedAt(waiting, outcome, old(queue.lastProcessedAt))
                    && notices == FailureNotices(waiting, outcome, old(queue.currentPosition), socketReady)
                    && store.contexts == RememberAll(old(store.contexts), waiting, now))
  {
    dispatched, notices := [], [];
    if !decision.Accepted? {
      reply := ReplyText(decision, 0);
      return;
    }
    var queuePosition := queue.AddToQueue(msg.chatId, decision.data, msg.key, id, now);
    reply := ReplyText(decision, queuePosition);
    if !announced {
      return;
    }
    ghost var remembered := store.contexts;
    dispatched, notices := queue.ProcessQueue(outcome, socketReady);
    for i := 0 to |dispatched|
      invariant store.contexts == RememberAll(remembered, dispatched[..i], now)
      modifies store
    {
      assert dispatched[..i + 1][..i] == dispatched[..i];
      store.Remember(dispatched[i].chatId, dispatched[i].original, now);
    }
    assert dispatched[..|dispatched|] == dispatched;
  }

  /** `handleApKaraCommand` after the group checks: store the message as the
      chat's context, decide, and respond; `announced` is whether the
      `Processing - Queue #` reply could be sent. */
  method HandleApKaraCommand(store: ContextStore, queue: RequestQueue, msg: Message, now: int, id: int,
                             outcome: Item -> Outcome, socketReady: bool, announced: bool)
    returns (reply: string, dispatched: seq<Item>, notices: seq<Notice>)
    requires queue.Valid()
    modifies store, queue
    ensures queue.Valid()
    ensures var decision := Decide(msg.text, msg.quoted, ReadingsOf(msg.text, msg.quoted));
            var stored := old(store.contexts)[msg.chatId := Context(msg.key, now)];
            !decision.Accepted? ==>
              && reply == ReplyText(decision, 0)
              && dispatched == [] && notices == []
              && store.contexts == stored
              && queue.items == old(queue.items) && queue.isProcessing == old(queue.isProcessing)
              && queue.totalProcessed == old(queue.totalProcessed)
              && queue.currentPosition == old(queue.currentPosition)
              && queue.lastProcessedAt == old(queue.lastProcessedAt)
    ensures var decision := Decide(msg.text, msg.quoted, ReadingsOf(msg.text, msg.quoted));
            var stored := old(store.contexts)[msg.chatId := Context(msg.key, now)];
            decision.Accepted? ==>
              var waiting := old(queue.items) + [Item(id, msg.chatId, decision.data, msg.key, now)];
              && reply == ReplyText(decision, |old(queue.items)|)
              && (old(queue.isProcessing) || !announced ==>
                    && dispatched == [] && notices == [] && queue.items == waiting
                    && queue.isProcessing == old(queue.isProcessing) && queue.totalProcessed == old(queue.totalProcessed)
                    && queue.currentPosition == old(queue.currentPosition)
                    && queue.lastProcessedAt == old(queue.lastProcessedAt)
                    && store.contexts == stored)
              && (!old(queue.isProcessing) && announced ==>
                    && dispatched == waiting && queue.items == [] && !queue.isProcessing
                    && queue.currentPosition == old(queue.currentPosition) + |waiting|
                    && queue.totalProcessed == old(queue.totalProcessed) + CountReturned(waiting, outcome)
                    && queue.lastProcessedAt == LastReturnedAt(waiting, outcome, old(queue.lastProcessedAt))
                    && notices == FailureNotices(waiting, outcome, old(queue.currentPosition), socketReady)
                    && store.contexts == RememberAll(stored, waiting, now))
  {
    store.Remember(msg.chatId, msg.key, now);
    var decision := ReadCommand(msg.text, msg.quoted);
    reply, dispatched, notices := Respond(store, queue, msg, decision, now, id, outcome, socketReady, announced);
  }
}
