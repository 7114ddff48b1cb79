/** The text line `main` prints for one record in text mode
    (mailgunlog/mailgunlog.py:177-183). The record's JSON is a partial
    record whose missing fields read as `''`; the bracketed timestamp text
    is taken as given. */
module TextLine {
  import opened Wrappers
  import opened Strings

  datatype DeliveryStatus = DeliveryStatus(description: Option<string>, message: Option<string>)
  datatype Headers = Headers(subject: Option<string>)
  datatype Message = Message(headers: Option<Headers>)

  /** The fields of an event record the line reads. */
  datatype LogRecord = LogRecord(
    event: Option<string>,
    recipient: Option<string>,
    deliveryStatus: Option<DeliveryStatus>,
    message: Option<Message>)

  /** `d.get(key, '')` for a string field. */
  function OrEmpty(s: Option<string>): string {
    if s.Some? then s.value else ""
  }

  /** `log.get('event', '').upper()`. */
  function Status(r: LogRecord): string {
    Upper(OrEmpty(r.event))
  }

  /** `status in ['ACCEPTED', 'DELIVERED']`. */
  predicate IsSuccess(r: LogRecord) {
    Status(r) == "ACCEPTED" || Status(r) == "DELIVERED"
  }

  /** The delivery status's `description`, or its `message` when the
      description is missing or empty. */
  function Reason(r: LogRecord): string {
    var ds := if r.deliveryStatus.Some? then r.deliveryStatus.value else DeliveryStatus(None, None);
    var description := OrEmpty(ds.description);
    if description != "" then description else OrEmpty(ds.message)
  }

  /** `log.get('message', {}).get('headers', {}).get('subject', '')`. */
  function Subject(r: LogRecord): string {
    var m := if r.message.Some? then r.message.value else Message(None);
    var h := if m.headers.Some? then m.headers.value else Headers(None);
    OrEmpty(h.subject)
  }

  /** The text before the optional failure suffix: `[<time>] <STATUS> <recipient>`. */
  function Head(timestamp: string, r: LogRecord): string {
    "[" + timestamp + "] " + Status(r) + " <" + OrEmpty(r.recipient) + ">"
  }

  /** The line for one record. */
  function Line(timestamp: string, r: LogRecord): (line: string)
    ensures |line| >= |Head(timestamp, r)| + 2 + |Subject(r)|
    ensures line[..|Head(timestamp, r)|] == Head(timestamp, r)
    ensures line[|line| - 2 - |Subject(r)|..] == ": " + Subject(r)
  {
    var suffix := if IsSuccess(r) then "" else " (" + Reason(r) + ")";
    Head(timestamp, r) + suffix + ": " + Subject(r)
  }

  /** `e` is the lower-case word `w` with any of its letters in upper case. */
  predicate IsCaseVariant(e: string, w: string) {
    |e| == |w| && forall i :: 0 <= i < |w| ==> e[i] == w[i] || e[i] == UpperChar(w[i])
  }

  /** A lower-case word `w`: its letters all lie between `a` and `z`. */
  predicate IsLowerWord(w: string) {
    forall i :: 0 <= i < |w| ==> 'a' <= w[i] <= 'z'
  }

  lemma {:induction false} UpperIsCaseVariant(e: string, w: string, u: string)
    requires IsLowerWord(w) && Upper(w) == u
    ensures Upper(e) == u <==> IsCaseVariant(e, w)
  {
    if Upper(e) == Upper(w) {
      forall i | 0 <= i < |w| ensures e[i] == w[i] || e[i] == UpperChar(w[i]) {
        assert UpperChar(e[i]) == UpperChar(w[i]);
      }
    }
    if IsCaseVariant(e, w) {
      assert forall i :: 0 <= i < |w| ==> Upper(e)[i] == Upper(w)[i];
    }
  }

  lemma UpperOfAccepted()
    ensures IsLowerWord("accepted") && Upper("accepted") == "ACCEPTED"
  {
    UpperOfLowerWord("accepted", "ACCEPTED");
  }

  lemma UpperOfDelivered()
    ensures IsLowerWord("delivered") && Upper("delivered") == "DELIVERED"
  {
    UpperOfLowerWord("delivered", "DELIVERED");
  }

  lemma UpperOfLowerWord(w: string, u: string)
    requires |w| == |u|
    requires forall i :: 0 <= i < |w| ==> 'a' <= w[i] <= 'z' && u[i] as int == w[i] as int - 32
    ensures Upper(w) == u
  {
  }

  /** A record counts as a success exactly when its event is `accepted` or
      `delivered`, in any mix of upper- and lower-case letters. */
  lemma SuccessIgnoresCase(r: LogRecord)
    ensures IsSuccess(r) <==>
              IsCaseVariant(OrEmpty(r.event), "accepted") || IsCaseVariant(OrEmpty(r.event), "delivered")
  {
    var e := OrEmpty(r.event);
    assert IsSuccess(r) <==> Upper(e) == "ACCEPTED" || Upper(e) == "DELIVERED";
    UpperOfAccepted();
    UpperOfDelivered();
    UpperIsCaseVariant(e, "accepted", "ACCEPTED");
    UpperIsCaseVariant(e, "delivered", "DELIVERED");
  }

  /** The line opens with the bracketed time, the upper-cased event and the
      recipient, and ends with the subject; the ` (<reason>)` part sits in
      between exactly when the event is not a success, and the reason is the
      delivery status's description or, failing that, its message. */
  lemma LineLayout(timestamp: string, r: LogRecord)
    ensures var line, head := Line(timestamp, r), Head(timestamp, r);
      && line[..|head|] == head
      && (IsSuccess(r) <==> line[|head|..] == ": " + Subject(r))
      && (!IsSuccess(r) ==> line[|head|..] == " (" + Reason(r) + "): " + Subject(r))
  {
    var line, head := Line(timestamp, r), Head(timestamp, r);
    if !IsSuccess(r) {
      assert line[|head|..][..2] == " (";
    } else {
      assert line == head + ": " + Subject(r);
    }
  }

  /** A record whose only field is its timestamp: the event reads as `''`,
      which is not a success, so an empty reason in parentheses is printed. */
  lemma EmptyRecordLine(timestamp: string)
    ensures Line(timestamp, LogRecord(None, None, None, None)) == "[" + timestamp + "]  <> (): "
  {
  }

  /** A delivered message without a subject: the line carries no reason and
      ends in `: ` followed by nothing. */
  lemma DeliveredWithoutSubject(timestamp: string, recipient: string)
    ensures var r := LogRecord(Some("delivered"), Some(recipient), None, None);
      && Status(r) == "DELIVERED"
      && Line(timestamp, r) == Head(timestamp, r) + ": "
  {
    var r := LogRecord(Some("delivered"), Some(recipient), None, None);
    UpperOfDelivered();
    assert Subject(r) == "";
    assert IsSuccess(r);
  }
}
