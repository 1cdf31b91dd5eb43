/**
  The voice webhook `make_outgoing_voice_call`: from the webhook's form fields,
  the configured caller ID and the stored identity slot, it decides how the
  telephony provider connects the call and answers with a TwiML document.

  The TwiML document is modelled by its structure (a sequence of verbs), not
  its XML text. A form field the handler reads but the request lacks raises
  `KeyError` in the source, which the web framework turns into a server error;
  here that is `Failure(MissingFormField(name))`.
*/
module CallRouting {
  import opened Wrappers
  import PhonePattern

  /** What a `<Dial>` connects to: `dial.number(...)` or `dial.client(...)`. */
  datatype DialNoun = Number(number: string) | Client(identity: string)

  /** A TwiML verb: `<Dial callerId=...>` with its nouns, or `<Say>`. */
  datatype Verb = Dial(callerId: Option<string>, nouns: seq<DialNoun>) | Say(message: string)

  /** The `<Response>` document: its verbs in order. */
  type VoiceResponse = seq<Verb>

  datatype CallError = MissingFormField(name: string)

  /** Parsed form fields: one value per field name. */
  type Form = map<string, string>

  const Greeting: string := "Thanks for calling!"

  /**
    The whole handler. `callerId` is the configured caller ID and
    `storedIdentity` the content of the process-wide identity slot when the
    request arrives. Python's truth test on the `phone` text is `phone != ""`.
  */
  function MakeOutgoingVoiceCall(form: Form, callerId: string, storedIdentity: string): (r: Result<VoiceResponse, CallError>)
    // A call to the service's own number dials the stored client, without a
    // caller ID, whether or not `phone` is present and whatever it holds.
    ensures "To" in form && form["To"] == callerId ==>
              r == Success([Dial(None, [Client(storedIdentity)])])
    // Outbound call to a phone number: dialled verbatim with the caller ID.
    ensures "To" in form && form["To"] != callerId && "phone" in form && form["phone"] != "" &&
            PhonePattern.LooksLikePhoneNumber(form["phone"]) ==>
              r == Success([Dial(Some(callerId), [Number(form["phone"])])])
    // Outbound call to a client name: the name is exactly the `phone` text.
    ensures "To" in form && form["To"] != callerId && "phone" in form && form["phone"] != "" &&
            !PhonePattern.LooksLikePhoneNumber(form["phone"]) ==>
              r == Success([Dial(Some(callerId), [Client(form["phone"])])])
    // No target: a single greeting and no dial.
    ensures "To" in form && form["To"] != callerId && "phone" in form && form["phone"] == "" ==>
              r == Success([Say(Greeting)])
    // Errors: `To` is read first; `phone` only when `To` is not the caller ID.
    ensures r.Failure? <==> "To" !in form || (form["To"] != callerId && "phone" !in form)
    ensures "To" !in form ==> r == Failure(MissingFormField("To"))
    ensures "To" in form && form["To"] != callerId && "phone" !in form ==> r == Failure(MissingFormField("phone"))
  {
    if "To" !in form then
      Failure(MissingFormField("To"))
    else if form["To"] == callerId then
      Success([Dial(None, [Client(storedIdentity)])])
    else if "phone" !in form then
      Failure(MissingFormField("phone"))
    else if form["phone"] != "" then
      var phone := form["phone"];
      var noun := if PhonePattern.Matches(phone) then Number(phone) else Client(phone);
      Success([Dial(Some(callerId), [noun])])
    else
      Success([Say(Greeting)])
  }

  /** The four shapes of a successful document; they are pairwise distinct. */
  predicate IsDialStoredClient(d: VoiceResponse, storedIdentity: string) {
    d == [Dial(None, [Client(storedIdentity)])]
  }

  predicate IsDialNumber(d: VoiceResponse, callerId: string) {
    |d| == 1 && d[0].Dial? && d[0].callerId == Some(callerId) &&
    |d[0].nouns| == 1 && d[0].nouns[0].Number?
  }

  predicate IsDialClient(d: VoiceResponse, callerId: string) {
    |d| == 1 && d[0].Dial? && d[0].callerId == Some(callerId) &&
    |d[0].nouns| == 1 && d[0].nouns[0].Client?
  }

  predicate IsGreeting(d: VoiceResponse) {
    d == [Say(Greeting)]
  }

  /**
    With both fields present the handler never fails, and its document is
    exactly one of the four shapes: the branches are exhaustive and exclusive.
  */
  lemma RoutingPartition(form: Form, callerId: string, storedIdentity: string)
    requires "To" in form && "phone" in form
    ensures var r := MakeOutgoingVoiceCall(form, callerId, storedIdentity);
      && r.Success?
      && (IsDialStoredClient(r.value, storedIdentity) <==> form["To"] == callerId)
      && (IsDialNumber(r.value, callerId) <==>
            form["To"] != callerId && form["phone"] != "" && PhonePattern.LooksLikePhoneNumber(form["phone"]))
      && (IsDialClient(r.value, callerId) <==>
            form["To"] != callerId && form["phone"] != "" && !PhonePattern.LooksLikePhoneNumber(form["phone"]))
      && (IsGreeting(r.value) <==> form["To"] != callerId && form["phone"] == "")
  {
  }

  /**
    The document never alters what it dials: every dialled number is the
    `phone` text, every dialled client is `phone` or the stored identity, and
    a caller ID, when present, is the configured one.
  */
  lemma DialsOnlyGivenTargets(form: Form, callerId: string, storedIdentity: string, i: nat, k: nat)
    requires MakeOutgoingVoiceCall(form, callerId, storedIdentity).Success?
    requires i < |MakeOutgoingVoiceCall(form, callerId, storedIdentity).value|
    requires MakeOutgoingVoiceCall(form, callerId, storedIdentity).value[i].Dial?
    requires k < |MakeOutgoingVoiceCall(form, callerId, storedIdentity).value[i].nouns|
    ensures var v := MakeOutgoingVoiceCall(form, callerId, storedIdentity).value[i];
      && (v.callerId.Some? ==> v.callerId.value == callerId)
      && (v.nouns[k].Number? ==> "phone" in form && v.nouns[k].number == form["phone"])
      && (v.nouns[k].Client? ==>
            v.nouns[k].identity == storedIdentity || ("phone" in form && v.nouns[k].identity == form["phone"]))
  {
  }

  /** For a call to the service's own number, the `phone` field is never consulted. */
  lemma InboundIgnoresPhone(form: Form, callerId: string, storedIdentity: string, phone: string)
    requires "To" in form && form["To"] == callerId
    ensures MakeOutgoingVoiceCall(form["phone" := phone], callerId, storedIdentity) ==
            MakeOutgoingVoiceCall(form, callerId, storedIdentity)
    ensures MakeOutgoingVoiceCall(form - {"phone"}, callerId, storedIdentity) ==
            MakeOutgoingVoiceCall(form, callerId, storedIdentity)
  {
  }

  /** Concrete webhooks: a formatted number, a client name, an empty target, an empty form. */
  lemma RoutingExamples(callerId: string, storedIdentity: string)
    requires callerId != "+15550000"
    ensures MakeOutgoingVoiceCall(map["To" := "+15550000", "phone" := "+1 555-0100"], callerId, storedIdentity)
            == Success([Dial(Some(callerId), [Number("+1 555-0100")])])
    ensures MakeOutgoingVoiceCall(map["To" := "+15550000", "phone" := "alice"], callerId, storedIdentity)
            == Success([Dial(Some(callerId), [Client("alice")])])
    ensures MakeOutgoingVoiceCall(map["To" := "+15550000", "phone" := ""], callerId, storedIdentity)
            == Success([Say(Greeting)])
    ensures MakeOutgoingVoiceCall(map[], callerId, storedIdentity) == Failure(MissingFormField("To"))
  {
  }
}
