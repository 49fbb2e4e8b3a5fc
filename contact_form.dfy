/**
 * The contact form: four text fields updated by id, and a submission that
 * runs in two stages. Submitting first marks the form as sending and clears
 * the status. When the submission settles it records success and empties
 * the fields, or records an error and keeps them, and stops sending.
 */
module ContactForm {

  /** The `id`s of the form's inputs. */
  datatype Field = Name | Email | Subject | Message

  datatype FormData = FormData(name: string, email: string, subject: string, message: string)

  /** `submitStatus`: `null`, `"success"` or `"error"`. */
  datatype SubmitStatus = NoStatus | Success | Error

  datatype FormState = FormState(formData: FormData, isSubmitting: bool, submitStatus: SubmitStatus)

  const EmptyForm: FormData := FormData("", "", "", "")

  const InitialState: FormState := FormState(EmptyForm, false, NoStatus)

  function Get(d: FormData, f: Field): string
  {
    match f
    case Name => d.name
    case Email => d.email
    case Subject => d.subject
    case Message => d.message
  }

  /** `{...prev, [id]: value}`. */
  function Update(d: FormData, id: Field, value: string): (r: FormData)
    ensures Get(r, id) == value
    ensures forall f :: f != id ==> Get(r, f) == Get(d, f)
  {
    match id
    case Name => d.(name := value)
    case Email => d.(email := value)
    case Subject => d.(subject := value)
    case Message => d.(message := value)
  }

  /** `handleChange`. */
  function Change(s: FormState, id: Field, value: string): FormState
  {
    s.(formData := Update(s.formData, id, value))
  }

  /** The synchronous start of `handleSubmit`. */
  function BeginSubmit(s: FormState): FormState
  {
    s.(isSubmitting := true, submitStatus := NoStatus)
  }

  /** The end of `handleSubmit`: the `try` or the `catch` branch, then `finally`. */
  function FinishSubmit(s: FormState, failed: bool): FormState
  {
    if failed then s.(submitStatus := Error, isSubmitting := false)
    else FormState(EmptyForm, false, Success)
  }

  /** The submit button is disabled while sending. */
  predicate ButtonDisabled(s: FormState)
  {
    s.isSubmitting
  }

  predicate ShowsSuccessMessage(s: FormState)
  {
    s.submitStatus == Success
  }

  predicate ShowsErrorMessage(s: FormState)
  {
    s.submitStatus == Error
  }

  /** While sending, no outcome message is shown. */
  predicate Consistent(s: FormState)
  {
    s.isSubmitting ==> s.submitStatus == NoStatus
  }

  // ---------------------------------------------------------------------
  // What the browser lets through
  // ---------------------------------------------------------------------

  /** The position of the first `c` in `s`, or `|s|` when there is none. */
  function IndexOf(s: string, c: char): (r: nat)
    ensures r <= |s|
    ensures r < |s| ==> s[r] == c
    ensures forall i :: 0 <= i < r ==> s[i] != c
  {
    if s == [] then 0 else if s[0] == c then 0 else 1 + IndexOf(s[1..], c)
  }

  /** `atext` of section 3.2.3 of RFC 5322. */
  predicate IsAText(c: char)
  {
    || 'a' <= c <= 'z' || 'A' <= c <= 'Z' || '0' <= c <= '9'
    || c in "!#$%&'*+-/=?^_`{|}~"
  }

  predicate IsLetDig(c: char)
  {
    'a' <= c <= 'z' || 'A' <= c <= 'Z' || '0' <= c <= '9'
  }

  /** A domain label: letters, digits and hyphens, not starting or ending with a hyphen, at most 63 characters. */
  predicate ValidLabel(l: string)
  {
    && 1 <= |l| <= 63
    && IsLetDig(l[0]) && IsLetDig(l[|l| - 1])
    && forall i :: 0 <= i < |l| ==> IsLetDig(l[i]) || l[i] == '-'
  }

  /** One or more labels separated by dots. */
  predicate ValidDomain(d: string)
    decreases |d|
  {
    var k := IndexOf(d, '.');
    if k == |d| then ValidLabel(d) else ValidLabel(d[..k]) && ValidDomain(d[k + 1..])
  }

  /**
   * A valid e-mail address in the sense of the HTML Standard's `type=email`
   * input: one or more `atext` characters or dots, `@`, and a domain.
   */
  predicate ValidEmail(e: string)
  {
    var k := IndexOf(e, '@');
    && 0 < k < |e|
    && (forall i :: 0 <= i < k ==> IsAText(e[i]) || e[i] == '.')
    && ValidDomain(e[k + 1..])
  }

  /**
   * The browser fires the form's `submit` event only when the submit button is
   * enabled, every `required` field is non-empty and the e-mail field holds a
   * valid address.
   */
  predicate CanSubmit(s: FormState)
  {
    && !ButtonDisabled(s)
    && s.formData.name != "" && s.formData.subject != "" && s.formData.message != ""
    && ValidEmail(s.formData.email)
  }

  /**
   * What the user and the network can do: edit a field, submit, or settle the
   * submission in flight. A submit the browser blocks changes nothing, and
   * only a submission in flight can settle.
   */
  datatype Event = Edit(id: Field, value: string) | Submit | Settle(failed: bool)

  function Step(s: FormState, e: Event): FormState
  {
    match e
    case Edit(id, value) => Change(s, id, value)
    case Submit => if CanSubmit(s) then BeginSubmit(s) else s
    case Settle(failed) => if s.isSubmitting then FinishSubmit(s, failed) else s
  }

  /** The events in order; written on the last event so that prefixes of a run are runs. */
  function Run(s: FormState, events: seq<Event>): FormState
    decreases |events|
  {
    if events == [] then s else Step(Run(s, events[..|events| - 1]), events[|events| - 1])
  }

  class ContactForm {
    var formData: FormData
    var isSubmitting: bool
    var submitStatus: SubmitStatus

    function State(): FormState
      reads this
    {
      FormState(formData, isSubmitting, submitStatus)
    }

    ghost predicate Valid()
      reads this
    {
      Consistent(State())
    }

    constructor ()
      ensures Valid()
      ensures State() == InitialState
    {
      formData := FormData("", "", "", "");
      isSubmitting := false;
      submitStatus := NoStatus;
    }

    method HandleChange(id: Field, value: string)
      requires Valid()
      modifies this
      ensures Valid()
      ensures State() == Change(old(State()), id, value)
    {
      formData := Update(formData, id, value);
    }

    /** `handleSubmit` up to its `await`. */
    method StartSubmit()
      modifies this
      ensures Valid()
      ensures State() == BeginSubmit(old(State()))
    {
      isSubmitting := true;
      submitStatus := NoStatus;
    }

    /** `handleSubmit` after its `await`; `failed` says whether the `try` block threw. */
    method SettleSubmit(failed: bool)
      modifies this
      ensures Valid()
      ensures State() == FinishSubmit(old(State()), failed)
    {
      if !failed {
        submitStatus := Success;
        formData := FormData("", "", "", "");
      } else {
        submitStatus := Error;
      }
      isSubmitting := false;
    }
  }

  // ---------------------------------------------------------------------
  // Properties
  // ---------------------------------------------------------------------

  /** Editing a field sets that field and leaves the other three and the submission state alone. */
  lemma ChangeEffect(s: FormState, id: Field, value: string)
    ensures Get(Change(s, id, value).formData, id) == value
    ensures forall f :: f != id ==> Get(Change(s, id, value).formData, f) == Get(s.formData, f)
    ensures Change(s, id, value).isSubmitting == s.isSubmitting
    ensures Change(s, id, value).submitStatus == s.submitStatus
  {
  }

  /**
   * A submission that succeeds ends with the success status, all four fields
   * empty and the button enabled; one that fails ends with the error status,
   * the fields as they were and the button enabled.
   */
  lemma SubmissionOutcomes(s: FormState)
    ensures BeginSubmit(s).isSubmitting && BeginSubmit(s).submitStatus == NoStatus
    ensures BeginSubmit(s).formData == s.formData
    ensures FinishSubmit(BeginSubmit(s), false) == FormState(EmptyForm, false, Success)
    ensures FinishSubmit(BeginSubmit(s), true) == FormState(s.formData, false, Error)
    ensures forall failed :: !ButtonDisabled(FinishSubmit(s, failed))
  {
  }

  /** At most one outcome message shows, and none while sending in a consistent state. */
  lemma Messages(s: FormState)
    ensures !(ShowsSuccessMessage(s) && ShowsErrorMessage(s))
    ensures Consistent(s) && ButtonDisabled(s) ==> !ShowsSuccessMessage(s) && !ShowsErrorMessage(s)
  {
  }

  /** Every sequence of edits, submissions and outcomes keeps the form consistent. */
  lemma {:induction false} RunConsistent(s: FormState, events: seq<Event>)
    requires Consistent(s)
    ensures Consistent(Run(s, events))
    decreases |events|
  {
    if events != [] {
      RunConsistent(s, events[..|events| - 1]);
    }
  }

  /**
   * A blocked submit changes nothing: in particular a second submit while the
   * first is in flight, and a submit of the empty form.
   */
  lemma SubmitGate(s: FormState)
    ensures !CanSubmit(s) ==> Step(s, Submit) == s
    ensures CanSubmit(s) ==> Step(s, Submit) == BeginSubmit(s)
    ensures Step(Step(s, Submit), Submit) == Step(s, Submit)
    ensures !CanSubmit(InitialState)
    ensures forall failed :: !s.isSubmitting ==> Step(s, Settle(failed)) == s
  {
  }

  /** `IndexOf` finds the first occurrence. */
  lemma IndexOfFirst(s: string, c: char, k: nat)
    requires k <= |s| && (k < |s| ==> s[k] == c)
    requires forall i :: 0 <= i < k ==> s[i] != c
    ensures IndexOf(s, c) == k
  {
  }

  /** An ordinary address is valid. */
  lemma ValidEmailExample(e: string)
    requires e == "me@example.com"
    ensures ValidEmail(e)
  {
    var d := e[3..];
    IndexOfFirst(e, '@', 2);
    assert forall i :: 0 <= i < 2 ==> IsAText(e[i]);
    ValidDomainExample(d, d[..7], d[8..]);
  }

  lemma ValidDomainExample(d: string, a: string, b: string)
    requires d == "example.com" && a == d[..7] && b == d[8..]
    ensures ValidDomain(d)
  {
    assert a == "example" && b == "com";
    IndexOfFirst(d, '.', 7);
    IndexOfFirst(b, '.', 3);
    assert forall i :: 0 <= i < |a| ==> IsLetDig(a[i]);
    assert forall i :: 0 <= i < |b| ==> IsLetDig(b[i]);
    assert ValidLabel(a) && ValidLabel(b);
    assert ValidDomain(b);
  }

  /** No local part, no domain, no `@`, or a label starting with a hyphen: not an address. */
  lemma InvalidEmailExamples(noDomain: string, noLocal: string, noAt: string, hyphen: string)
    requires noDomain == "me@" && noLocal == "@example.com" && noAt == "me" && hyphen == "me@-x"
    ensures !ValidEmail(noDomain) && !ValidEmail(noLocal) && !ValidEmail(noAt) && !ValidEmail(hyphen)
  {
    IndexOfFirst(noDomain, '@', 2);
    IndexOfFirst(noLocal, '@', 0);
    IndexOfFirst(noAt, '@', 2);
    IndexOfFirst(hyphen, '@', 2);
    assert hyphen[3..] == "-x";
    assert !ValidLabel("-x");
  }

  /**
   * A form that is neither sending nor showing success reaches sending or
   * success only through a submit the browser let through: some earlier
   * submit found the button enabled, the required fields filled and a valid
   * e-mail address.
   */
  lemma {:induction false} SuccessNeedsAcceptedSubmit(s: FormState, events: seq<Event>)
    requires !s.isSubmitting && s.submitStatus != Success
    ensures var r := Run(s, events);
            r.isSubmitting || r.submitStatus == Success ==>
              exists i :: 0 <= i < |events| && events[i] == Submit && CanSubmit(Run(s, events[..i]))
    decreases |events|
  {
    if events != [] {
      var n := |events|;
      var prefix := events[..n - 1];
      var prev := Run(s, prefix);
      var r := Run(s, events);
      SuccessNeedsAcceptedSubmit(s, prefix);
      if events[n - 1] == Submit && CanSubmit(prev) {
        assert events[..n - 1] == prefix;
      } else if r.isSubmitting || r.submitStatus == Success {
        assert prev.isSubmitting || prev.submitStatus == Success;
        var i :| 0 <= i < |prefix| && prefix[i] == Submit && CanSubmit(Run(s, prefix[..i]));
        assert prefix[..i] == events[..i];
        assert events[i] == Submit;
      }
    }
  }
}
