/**
 * The contact form: three text fields, an `isSubmitting` flag and a status
 * banner. Typing overwrites one field; submitting validates the fields,
 * checks the mail-service configuration, makes one external send and
 * schedules a timer that puts the banner back to idle.
 *
 * The transitions are stated first as functions on a `Form` value; the
 * class `ContactForm` holds the component's state in fields and its event
 * handlers are proved to perform exactly those transitions.
 */
module Contact {
  import opened Wrappers
  import opened Text

  /** The banner: `'idle' | 'success' | 'error'`. */
  datatype Status = Idle | Success | Error

  /**
   * The `formData` object. Inputs other than the three named ones would add
   * a property of their own; those land in `extras`.
   */
  datatype FormData = FormData(name: string, email: string, message: string, extras: map<string, string>)

  /** `{ name: '', email: '', message: '' }` */
  const EmptyForm: FormData := FormData("", "", "", map[])

  /** The mail-service settings and the mounted form element, as the submit handler sees them. */
  datatype Config = Config(formMounted: bool, serviceId: Option<string>, templateId: Option<string>, publicKey: Option<string>)

  /** What a submission came to; the caller renders all but `Delivered` as the same error banner. */
  datatype Outcome = Rejected | ConfigMissing | Delivered | DeliveryFailed

  /** The component's state between two events. */
  datatype Form = Form(data: FormData, submitting: bool, status: Status, pendingResets: nat)

  /** The state when the page is first shown. */
  const Initial: Form := Form(EmptyForm, false, Idle, 0)

  /** The events the component reacts to; `Timer` is one scheduled reset firing. */
  datatype Event = Change(inputName: string, value: string) | Submit(config: Config, sendOk: bool) | Timer

  // ------------------------------------------------------------ field update

  /** Input names mapped to form-data keys. */
  const FieldMap: map<string, string> := map["name" := "name", "email" := "email", "message" := "message"]

  /** `fieldMap[name] || name`: the form-data key an input writes to, which is always its own name. */
  function FormDataKey(inputName: string): (key: string)
    ensures key == inputName
  {
    if inputName in FieldMap && FieldMap[inputName] != "" then FieldMap[inputName] else inputName
  }

  /** Reading property `key` of the form data. */
  function Field(data: FormData, key: string): Option<string>
  {
    if key == "name" then Some(data.name)
    else if key == "email" then Some(data.email)
    else if key == "message" then Some(data.message)
    else if key in data.extras then Some(data.extras[key])
    else None
  }

  /** `{ ...prev, [key]: value }` */
  function Assign(data: FormData, key: string, value: string): FormData
  {
    if key == "name" then data.(name := value)
    else if key == "email" then data.(email := value)
    else if key == "message" then data.(message := value)
    else data.(extras := data.extras[key := value])
  }

  /** Assigning one property sets it and leaves every other property as it was. */
  lemma AssignFrame(data: FormData, key: string, value: string, other: string)
    ensures Field(Assign(data, key, value), key) == Some(value)
    ensures other != key ==> Field(Assign(data, key, value), other) == Field(data, other)
  {
  }

  /** `handleChange` */
  function ChangeField(f: Form, inputName: string, value: string): Form
  {
    f.(data := Assign(f.data, FormDataKey(inputName), value))
  }

  /** Typing into an input sets exactly that input's field; nothing else of the form changes. */
  lemma ChangeSetsOnlyThatField(f: Form, inputName: string, value: string, other: string)
    ensures Field(ChangeField(f, inputName, value).data, inputName) == Some(value)
    ensures other != inputName ==> Field(ChangeField(f, inputName, value).data, other) == Field(f.data, other)
    ensures ChangeField(f, inputName, value).(data := f.data) == f
  {
    AssignFrame(f.data, inputName, value, other);
  }

  /** The three inputs of the page each write their own field of the record. */
  lemma ChangeNamedInputs(f: Form, value: string)
    ensures ChangeField(f, "name", value).data == f.data.(name := value)
    ensures ChangeField(f, "email", value).data == f.data.(email := value)
    ensures ChangeField(f, "message", value).data == f.data.(message := value)
  {
  }

  // -------------------------------------------------------------- submission

  /** `!s.trim()`: empty or whitespace only. */
  predicate Blank(s: string)
  {
    Trim(s) == ""
  }

  /** All three fields hold something other than whitespace. */
  predicate Filled(data: FormData)
  {
    !Blank(data.name) && !Blank(data.email) && !Blank(data.message)
  }

  /** A configuration value is truthy: defined and not the empty string. */
  predicate Present(v: Option<string>)
  {
    v.Some? && v.value != ""
  }

  /** The form is mounted and all three mail-service settings are present. */
  predicate Configured(config: Config)
  {
    config.formMounted && Present(config.serviceId) && Present(config.templateId) && Present(config.publicKey)
  }

  /** Which path `handleSubmit` takes, given the result the external send would have. */
  function Decide(data: FormData, config: Config, sendOk: bool): Outcome
  {
    if !Filled(data) then Rejected
    else if !Configured(config) then ConfigMissing
    else if sendOk then Delivered
    else DeliveryFailed
  }

  /** The state writes `handleSubmit` makes on each path, including the `finally` block. */
  function Settle(f: Form, outcome: Outcome): Form
  {
    match outcome
    case Rejected => f.(status := Error, pendingResets := f.pendingResets + 1)
    case ConfigMissing => f.(submitting := false, status := Error, pendingResets := f.pendingResets + 1)
    case Delivered => f.(data := EmptyForm, submitting := false, status := Success, pendingResets := f.pendingResets + 1)
    case DeliveryFailed => f.(submitting := false, status := Error, pendingResets := f.pendingResets + 1)
  }

  /** `handleSubmit`, up to the point where it returns; the scheduled reset is counted in `pendingResets`. */
  function SubmitForm(f: Form, config: Config, sendOk: bool): Form
  {
    Settle(f, Decide(f.data, config, sendOk))
  }

  /** A scheduled reset fires: the banner goes back to idle. With no timer pending nothing fires. */
  function FireTimer(f: Form): Form
  {
    if f.pendingResets == 0 then f else f.(status := Idle, pendingResets := f.pendingResets - 1)
  }

  /** The external send is attempted exactly when the fields are filled and the configuration is present. */
  lemma SendAttemptedIff(data: FormData, config: Config, sendOk: bool)
    ensures Decide(data, config, sendOk) in {Delivered, DeliveryFailed} <==> Filled(data) && Configured(config)
    ensures Decide(data, config, sendOk) == Delivered <==> Filled(data) && Configured(config) && sendOk
  {
  }

  /** A field that is empty or whitespace only makes the form unfilled. */
  lemma WhitespaceFieldUnfilled(data: FormData)
    requires AllWhitespace(data.name) || AllWhitespace(data.email) || AllWhitespace(data.message)
    ensures !Filled(data)
  {
    if AllWhitespace(data.name) {
      TrimEmptyIffBlank(data.name);
    } else if AllWhitespace(data.email) {
      TrimEmptyIffBlank(data.email);
    } else {
      TrimEmptyIffBlank(data.message);
    }
  }

  /** A field that is empty or whitespace only rejects the form before any send, touching only the banner. */
  lemma SubmitRejectsBlank(f: Form, config: Config, sendOk: bool)
    requires AllWhitespace(f.data.name) || AllWhitespace(f.data.email) || AllWhitespace(f.data.message)
    ensures Decide(f.data, config, sendOk) == Rejected
    ensures SubmitForm(f, config, sendOk) == f.(status := Error, pendingResets := f.pendingResets + 1)
  {
    WhitespaceFieldUnfilled(f.data);
    assert Decide(f.data, config, sendOk) == Rejected;
    SettleState(f, Rejected);
  }

  /** Filled fields but a missing form or setting: no send, an error banner, fields kept. */
  lemma SubmitWithoutConfig(f: Form, config: Config, sendOk: bool)
    requires Filled(f.data) && !Configured(config)
    ensures Decide(f.data, config, sendOk) == ConfigMissing
    ensures SubmitForm(f, config, sendOk) == Form(f.data, false, Error, f.pendingResets + 1)
  {
    SettleState(f, ConfigMissing);
  }

  /** A successful send clears all three fields and shows the success banner. */
  lemma SubmitDelivered(f: Form, config: Config)
    requires Filled(f.data) && Configured(config)
    ensures SubmitForm(f, config, true) == Form(EmptyForm, false, Success, f.pendingResets + 1)
    ensures Field(SubmitForm(f, config, true).data, "name") == Some("")
    ensures Field(SubmitForm(f, config, true).data, "email") == Some("")
    ensures Field(SubmitForm(f, config, true).data, "message") == Some("")
  {
    assert Decide(f.data, config, true) == Delivered;
    SettleState(f, Delivered);
  }

  /** A failed send shows the error banner and keeps what was typed. */
  lemma SubmitFailed(f: Form, config: Config)
    requires Filled(f.data) && Configured(config)
    ensures SubmitForm(f, config, false) == Form(f.data, false, Error, f.pendingResets + 1)
  {
    assert Decide(f.data, config, false) == DeliveryFailed;
    SettleState(f, DeliveryFailed);
  }

  /** Every submission schedules one reset; one that passes validation ends with the flag cleared. */
  lemma SubmitSettles(f: Form, config: Config, sendOk: bool)
    ensures SubmitForm(f, config, sendOk).pendingResets == f.pendingResets + 1
    ensures Filled(f.data) ==> !SubmitForm(f, config, sendOk).submitting
    ensures SubmitForm(f, config, sendOk).status != Idle
  {
    SettleState(f, Decide(f.data, config, sendOk));
  }

  /** The state after a submission, read off its outcome. */
  lemma SettleState(f: Form, o: Outcome)
    ensures Settle(f, o) ==
      Form(if o == Delivered then EmptyForm else f.data,
           if o == Rejected then f.submitting else false,
           if o == Delivered then Success else Error,
           f.pendingResets + 1)
  {
  }

  /** A reset only puts the banner back to idle. */
  lemma TimerOnlyResetsStatus(f: Form)
    requires f.pendingResets > 0
    ensures FireTimer(f) == f.(status := Idle, pendingResets := f.pendingResets - 1)
    ensures FireTimer(f).data == f.data && FireTimer(f).submitting == f.submitting
  {
  }

  // ---------------------------------------------------------- whole sessions

  function Step(f: Form, e: Event): Form
  {
    match e
    case Change(n, v) => ChangeField(f, n, v)
    case Submit(c, ok) => SubmitForm(f, c, ok)
    case Timer => FireTimer(f)
  }

  /** The state after a sequence of events, applied first to last. */
  function Run(f: Form, events: seq<Event>): Form
    decreases |events|
  {
    if events == [] then f else Run(Step(f, events[0]), events[1..])
  }

  /**
   * Between events the form is never left submitting, and a banner other
   * than idle always has a reset pending that will clear it.
   */
  predicate Settled(f: Form)
  {
    !f.submitting && (f.pendingResets == 0 ==> f.status == Idle)
  }

  lemma StepSettled(f: Form, e: Event)
    requires Settled(f)
    ensures Settled(Step(f, e))
  {
  }

  /** Every state reachable from the initial one is settled. */
  lemma {:induction false} RunSettled(f: Form, events: seq<Event>)
    requires Settled(f)
    ensures Settled(Run(f, events))
    decreases |events|
  {
    if events != [] {
      StepSettled(f, events[0]);
      RunSettled(Step(f, events[0]), events[1..]);
    }
  }

  /** `n` reset timers firing one after another. */
  function Timers(n: nat): (r: seq<Event>)
    ensures |r| == n && forall i :: 0 <= i < n ==> r[i] == Timer
  {
    seq(n, i => Timer)
  }

  /** Once every pending reset has fired, the banner is idle and the fields are as they were. */
  lemma {:induction false} TimersClearBanner(f: Form)
    requires Settled(f)
    ensures Run(f, Timers(f.pendingResets)).status == Idle
    ensures Run(f, Timers(f.pendingResets)).data == f.data
    ensures Run(f, Timers(f.pendingResets)).pendingResets == 0
    decreases f.pendingResets
  {
    if f.pendingResets > 0 {
      var g := FireTimer(f);
      assert Timers(f.pendingResets)[1..] == Timers(g.pendingResets);
      TimersClearBanner(g);
    }
  }

  /** From any reachable state the banner eventually returns to idle. */
  lemma ReachableBannerClears(events: seq<Event>)
    ensures Settled(Run(Initial, events))
    ensures Run(Run(Initial, events), Timers(Run(Initial, events).pendingResets)).status == Idle
  {
    RunSettled(Initial, events);
    TimersClearBanner(Run(Initial, events));
  }

  // -------------------------------------------------------------- component

  /** The component instance: one field per piece of React state. */
  class ContactForm {
    var formData: FormData
    var isSubmitting: bool
    var submitStatus: Status
    var pendingResets: nat

    function State(): Form
      reads this
    {
      Form(formData, isSubmitting, submitStatus, pendingResets)
    }

    constructor ()
      ensures State() == Initial
    {
      formData := EmptyForm;
      isSubmitting := false;
      submitStatus := Idle;
      pendingResets := 0;
    }

    /** `handleChange`: the input's field receives the new value. */
    method HandleChange(inputName: string, value: string)
      modifies this
      ensures State() == ChangeField(old(State()), inputName, value)
    {
      var key := FormDataKey(inputName);
      formData := Assign(formData, key, value);
    }

    /**
     * `handleSubmit`. `sendOk` is what the external send would report; it is
     * consulted only on the path that sends.
     */
    method HandleSubmit(config: Config, sendOk: bool) returns (outcome: Outcome)
      modifies this
      ensures outcome == Decide(old(formData), config, sendOk)
      ensures State() == SubmitForm(old(State()), config, sendOk)
    {
      ghost var before := State();
      SettleState(before, Decide(before.data, config, sendOk));
      if !Filled(formData) {
        submitStatus := Error;
        pendingResets := pendingResets + 1;
        return Rejected;
      }
      isSubmitting := true;
      if !Configured(config) {
        outcome := ConfigMissing;
        submitStatus := Error;
      } else if sendOk {
        outcome := Delivered;
        submitStatus := Success;
        formData := EmptyForm;
      } else {
        outcome := DeliveryFailed;
        submitStatus := Error;
      }
      isSubmitting := false;
      pendingResets := pendingResets + 1;
    }

    /** One scheduled reset fires. */
    method ResetStatus()
      requires pendingResets > 0
      modifies this
      ensures State() == FireTimer(old(State()))
    {
      submitStatus := Idle;
      pendingResets := pendingResets - 1;
    }
  }

  /** The message a visitor types in the scenario below. */
  const SampleMessage: FormData := FormData("Ada", "ada@example.com", "Hello", map[])

  lemma SampleMessageFilled()
    ensures Filled(SampleMessage)
  {
    assert !IsWhitespace("Ada"[0]) && !IsWhitespace("ada@example.com"[0]) && !IsWhitespace("Hello"[0]);
    TrimEmptyIffBlank("Ada");
    TrimEmptyIffBlank("ada@example.com");
    TrimEmptyIffBlank("Hello");
  }

  /** A visitor fills in the form, sends it, and waits for the banner to clear. */
  method SendMessageScenario(config: Config)
    requires Configured(config)
  {
    var form := new ContactForm();
    form.HandleChange("name", "Ada");
    form.HandleChange("email", "ada@example.com");
    form.HandleChange("message", "Hello");
    assert form.formData == SampleMessage;
    SampleMessageFilled();
    ghost var typed := form.State();
    SubmitDelivered(typed, config);
    var outcome := form.HandleSubmit(config, true);
    assert outcome == Delivered;
    assert form.formData == EmptyForm && form.submitStatus == Success && !form.isSubmitting;
    form.ResetStatus();
    assert form.submitStatus == Idle;
  }
}
