/**
 * Send_SMS_v1: sends the configured body to the configured number through
 * the SMS service. The number is trimmed and generalised (only digits, '+'
 * and, for alphanumeric numbers, letters survive; a bare ten-digit number is
 * taken to be a US number), the body gets the Fr8 signature, and the
 * service's answer becomes a "Message Data" payload crate.
 */
module SendSms {
  import opened Wrappers
  import opened Strings
  import opened Crates

  const BodySuffix := "\nThis message was generated by Fr8. http://www.fr8.co"
  const FailurePrefix := "Twilio Service Failure due to "
  const MessageDataLabel := "Message Data"

  /** The characters of `s` that satisfy `keep`, in their original order. */
  function Filtered(s: string, keep: char -> bool): (r: string)
    ensures |r| <= |s|
    ensures forall i :: 0 <= i < |r| ==> keep(r[i])
  {
    if |s| == 0 then "" else (if keep(s[0]) then [s[0]] else "") + Filtered(s[1..], keep)
  }

  /** A character survives exactly when it is in `s` and satisfies `keep`. */
  lemma {:induction false} FilteredMembers(s: string, keep: char -> bool, c: char)
    ensures c in Filtered(s, keep) <==> c in s && keep(c)
  {
    if |s| > 0 {
      FilteredMembers(s[1..], keep, c);
      assert s == [s[0]] + s[1..];
    }
  }

  /** Filtering keeps the relative order: it distributes over concatenation. */
  lemma {:induction false} FilteredAppend(a: string, b: string, keep: char -> bool)
    ensures Filtered(a + b, keep) == Filtered(a, keep) + Filtered(b, keep)
  {
    if |a| > 0 {
      assert (a + b)[1..] == a[1..] + b;
      FilteredAppend(a[1..], b, keep);
    } else {
      assert a + b == b;
    }
  }

  /** A string all of whose characters survive is left as it is. */
  lemma {:induction false} FilteredAll(s: string, keep: char -> bool)
    requires forall i :: 0 <= i < |s| ==> keep(s[i])
    ensures Filtered(s, keep) == s
  {
    if |s| > 0 {
      FilteredAll(s[1..], keep);
      assert [s[0]] + s[1..] == s;
    }
  }

  /** The characters a phone number keeps: digits, '+', and letters when the whole number is alphanumeric. */
  function PhoneChar(s: string, cc: CharClasses, isAlphaNumber: string -> bool): char -> bool {
    c => cc.isDigit(c) || c == '+' || (isAlphaNumber(s) && cc.isLetter(c))
  }

  /** GeneralisePhoneNumber. */
  function GeneralisePhoneNumber(s: string, cc: CharClasses, isAlphaNumber: string -> bool): string {
    var kept := Filtered(s, PhoneChar(s, cc, isAlphaNumber));
    if |kept| == 10 && '+' !in kept then "+1" + kept else kept
  }

  /**
   * The generalised number is the filtered number, prefixed by "+1" exactly
   * when that filtered number has ten characters and no '+'.
   */
  lemma GeneraliseSpec(s: string, cc: CharClasses, isAlphaNumber: string -> bool, c: char)
    ensures var r := GeneralisePhoneNumber(s, cc, isAlphaNumber);
      var kept := Filtered(s, PhoneChar(s, cc, isAlphaNumber));
      && (r == "+1" + kept <==> |kept| == 10 && '+' !in kept)
      && (r != "+1" + kept ==> r == kept)
      && (c in kept <==> c in s && (cc.isDigit(c) || c == '+' || (isAlphaNumber(s) && cc.isLetter(c))))
  {
    FilteredMembers(s, PhoneChar(s, cc, isAlphaNumber), c);
    var kept := Filtered(s, PhoneChar(s, cc, isAlphaNumber));
    if |kept| != 10 || '+' in kept {
      assert |"+1" + kept| != |kept|;
    }
  }

  /** For a number that is not alphanumeric, generalising twice is generalising once (given that '1' is a digit). */
  lemma GeneraliseIdempotent(s: string, cc: CharClasses, isAlphaNumber: string -> bool)
    requires cc.isDigit('1') && !isAlphaNumber(s)
    ensures var r := GeneralisePhoneNumber(s, cc, isAlphaNumber);
      GeneralisePhoneNumber(r, cc, isAlphaNumber) == r
  {
    var kept := Filtered(s, PhoneChar(s, cc, isAlphaNumber));
    var r := GeneralisePhoneNumber(s, cc, isAlphaNumber);
    assert forall i :: 0 <= i < |kept| ==> cc.isDigit(kept[i]) || kept[i] == '+';
    assert forall i :: 0 <= i < |r| ==> PhoneChar(r, cc, isAlphaNumber)(r[i]) by {
      if r != kept {
        assert r == "+1" + kept;
        assert forall i :: 2 <= i < |r| ==> r[i] == kept[i - 2];
      }
    }
    FilteredAll(r, PhoneChar(r, cc, isAlphaNumber));
    if r != kept {
      assert r[0] == '+';
    }
  }

  /** The answer of the SMS service. */
  datatype Message = Message(status: Option<string>, errorMessage: Option<string>, body: Option<string>, to: Option<string>)

  /** CreateKeyValuePairList: Status, ErrorMessage, Body and ToNumber, in that order. */
  function MessageFields(m: Message): (r: seq<Field>)
    ensures |r| == 4
    ensures r[0] == KeyValue("Status", m.status) && r[1] == KeyValue("ErrorMessage", m.errorMessage)
    ensures r[2] == KeyValue("Body", m.body) && r[3] == KeyValue("ToNumber", m.to)
  {
    [KeyValue("Status", m.status), KeyValue("ErrorMessage", m.errorMessage),
     KeyValue("Body", m.body), KeyValue("ToNumber", m.to)]
  }

  /** How a run fails: an error raised with a message, or a null number escaping as NullReferenceException. */
  datatype RunError = Raised(message: string) | NullReference

  /**
   * ParseSMSNumberAndMsg: the generalised trimmed number as key and the body
   * as value. Reading a control's value may raise ArgumentException (`Err`
   * with its message); a null number fails in Trim.
   */
  function ParseNumberAndBody(numberValue: Result<Option<string>, string>, bodyValue: Result<Option<string>, string>,
                              cc: CharClasses, isAlphaNumber: string -> bool): Result<Field, RunError>
  {
    if numberValue.Err? then Err(Raised(numberValue.error))
    else if numberValue.value.None? then Err(NullReference)
    else
      var number := GeneralisePhoneNumber(Trim(numberValue.value.value, cc), cc, isAlphaNumber);
      if bodyValue.Err? then Err(Raised(bodyValue.error))
      else Ok(KeyValue(number, bodyValue.value))
  }

  /** The message body sent: the configured body (empty when null) followed by the signature. */
  function SentBody(value: Option<string>): string {
    value.GetOr("") + BodySuffix
  }

  /** RunETA: the new payload and the error raised, if any. */
  function Ran(payload: seq<Crate>, numberValue: Result<Option<string>, string>, bodyValue: Result<Option<string>, string>,
               cc: CharClasses, isAlphaNumber: string -> bool, send: (string, string) -> Result<Message, string>)
    : (seq<Crate>, Option<RunError>)
  {
    match ParseNumberAndBody(numberValue, bodyValue, cc, isAlphaNumber)
    case Err(e) => (payload, Some(e))
    case Ok(f) =>
      match send(f.key, SentBody(f.value))
      case Err(m) => (payload, Some(Raised(FailurePrefix + m)))
      case Ok(msg) => (payload + [Crate(MessageDataLabel, PayloadData([MessageFields(msg)]), NotSet)], None)
  }

  /**
   * The outcomes of a run: a failure while reading the values raises its own
   * message, a send failure raises it behind "Twilio Service Failure due to ",
   * and only a successful send appends the message crate, which is then the
   * payload's only change.
   */
  lemma RanSpec(payload: seq<Crate>, numberValue: Result<Option<string>, string>, bodyValue: Result<Option<string>, string>,
                cc: CharClasses, isAlphaNumber: string -> bool, send: (string, string) -> Result<Message, string>)
    ensures var (p, e) := Ran(payload, numberValue, bodyValue, cc, isAlphaNumber, send);
      && (numberValue.Err? ==> p == payload && e == Some(Raised(numberValue.error)))
      && (numberValue.Ok? && numberValue.value.None? ==> p == payload && e == Some(NullReference))
      && (numberValue.Ok? && numberValue.value.Some? && bodyValue.Err? ==> p == payload && e == Some(Raised(bodyValue.error)))
      && (numberValue.Ok? && numberValue.value.Some? && bodyValue.Ok? ==>
            var number := GeneralisePhoneNumber(Trim(numberValue.value.value, cc), cc, isAlphaNumber);
            var sent := send(number, bodyValue.value.GetOr("") + BodySuffix);
            && (sent.Err? ==> p == payload && e == Some(Raised(FailurePrefix + sent.error)))
            && (sent.Ok? ==> (e.None? && |p| == |payload| + 1 && p[..|payload|] == payload
                  && p[|payload|].labelText == MessageDataLabel
                  && p[|payload|].content == PayloadData([MessageFields(sent.value)]))))
  {
  }

  /** The activity's run-time payload. */
  class SendSmsActivity {
    var payload: seq<Crate>

    constructor (payload: seq<Crate>)
      ensures this.payload == payload
    {
      this.payload := payload;
    }

    method RunETA(numberValue: Result<Option<string>, string>, bodyValue: Result<Option<string>, string>,
                  cc: CharClasses, isAlphaNumber: string -> bool, send: (string, string) -> Result<Message, string>)
      returns (error: Option<RunError>)
      modifies this
      ensures (payload, error) == Ran(old(payload), numberValue, bodyValue, cc, isAlphaNumber, send)
    {
      var parsed := ParseNumberAndBody(numberValue, bodyValue, cc, isAlphaNumber);
      if parsed.Err? {
        return Some(parsed.error);
      }
      var smsNumber := parsed.value.key;
      var smsBody := parsed.value.value.GetOr("") + BodySuffix;
      var sent := send(smsNumber, smsBody);
      if sent.Err? {
        return Some(Raised(FailurePrefix + sent.error));
      }
      var fields := MessageFields(sent.value);
      payload := payload + [Crate(MessageDataLabel, PayloadData([fields]), NotSet)];
      error := None;
    }
  }
}
