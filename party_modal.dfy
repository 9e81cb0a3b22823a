/**
 * The party form of `src/components/modals/PartyModal.tsx`: defaults from
 * the party being edited, validation of the name and the GSTIN, GSTIN
 * entry, and the record submitted when the form is valid.
 */
module PartyModal {
  import opened Wrappers
  import opened Strings
  import opened Decimal
  import opened PartiesPage

  /** `Partial<Party>`: the fields the form reads, each possibly absent. */
  datatype PartyDraft = PartyDraft(
    name: Option<string>, gst: Option<string>, contactPerson: Option<string>, contact: Option<string>,
    address: Option<string>, state: Option<string>, dist: Option<string>, city: Option<string>,
    pincode: Option<string>, openingBalance: Option<int>, currentBalance: Option<int>,
    isActive: Option<bool>)

  /** The form's text fields and check box. */
  datatype PartyForm = PartyForm(
    name: string, gst: string, contactPerson: string, contact: string, address: string,
    state: string, dist: string, city: string, pincode: string, openingBalance: string,
    isActive: bool)

  datatype Mode = Add | Edit

  /** `value || ''` on an optional string: absent and empty both give ''. */
  function TextOr(v: Option<string>, fallback: string): (r: string)
    ensures v.Some? && v.value != "" ==> r == v.value
    ensures v.None? || v.value == "" ==> r == fallback
  {
    if v.Some? && v.value != "" then v.value else fallback
  }

  /**
   * The form's first state. Text fields fall back to ''. The opening balance
   * shows the draft's number, with 0 (falsy) and absence both giving '0'.
   * The check box is ticked unless the draft says false.
   */
  function InitialForm(init: Option<PartyDraft>): (f: PartyForm)
    ensures init.None? ==> f == PartyForm("", "", "", "", "", "", "", "", "", "0", true)
    ensures init.Some? ==> f.name == init.value.name.GetOr("") && f.gst == init.value.gst.GetOr("")
                           && f.contactPerson == init.value.contactPerson.GetOr("")
                           && f.contact == init.value.contact.GetOr("") && f.address == init.value.address.GetOr("")
                           && f.state == init.value.state.GetOr("") && f.dist == init.value.dist.GetOr("")
                           && f.city == init.value.city.GetOr("") && f.pincode == init.value.pincode.GetOr("")
    ensures f.openingBalance == IntString(if init.Some? then init.value.openingBalance.GetOr(0) else 0)
    ensures f.isActive <==> !(init.Some? && init.value.isActive == Some(false))
  {
    match init
    case None => PartyForm("", "", "", "", "", "", "", "", "", "0", true)
    case Some(d) =>
      var balance := d.openingBalance;
      PartyForm(
        TextOr(d.name, ""), TextOr(d.gst, ""), TextOr(d.contactPerson, ""), TextOr(d.contact, ""),
        TextOr(d.address, ""), TextOr(d.state, ""), TextOr(d.dist, ""), TextOr(d.city, ""),
        TextOr(d.pincode, ""),
        if balance.Some? && balance.value != 0 then IntString(balance.value) else "0",
        d.isActive.GetOr(true))
  }

  /** One position of a regular expression: a bracket class or a literal. */
  datatype CharClass = Digit | NonZeroDigitOrUpper | UpperLetter | DigitOrUpper | Literal(c: char)

  predicate InClass(c: char, k: CharClass)
  {
    match k
    case Digit => IsDigit(c)
    case NonZeroDigitOrUpper => ('1' <= c <= '9') || IsUpper(c)
    case UpperLetter => IsUpper(c)
    case DigitOrUpper => IsDigit(c) || IsUpper(c)
    case Literal(l) => c == l
  }

  function Repeat(k: CharClass, n: nat): (r: seq<CharClass>)
    ensures |r| == n && forall i :: 0 <= i < n ==> r[i] == k
  {
    if n == 0 then [] else [k] + Repeat(k, n - 1)
  }

  /** `^[0-9]{2}[A-Z]{5}[0-9]{4}[A-Z]{1}[1-9A-Z]{1}Z[0-9A-Z]{1}$`, one class per position. */
  const GstPattern: seq<CharClass> :=
    Repeat(Digit, 2) + Repeat(UpperLetter, 5) + Repeat(Digit, 4) + Repeat(UpperLetter, 1)
    + Repeat(NonZeroDigitOrUpper, 1) + [Literal('Z')] + Repeat(DigitOrUpper, 1)

  /** An anchored pattern of fixed-width classes matches a string of the same length, class by class. */
  function MatchesClasses(s: string, pattern: seq<CharClass>): (b: bool)
    ensures b <==> |s| == |pattern| && forall i :: 0 <= i < |s| ==> InClass(s[i], pattern[i])
  {
    if s == [] || pattern == [] then s == [] && pattern == []
    else
      var b := InClass(s[0], pattern[0]) && MatchesClasses(s[1..], pattern[1..]);
      assert forall i :: 1 <= i < |s| && i < |pattern| ==> s[i] == s[1..][i - 1] && pattern[i] == pattern[1..][i - 1];
      b
  }

  predicate ValidGst(g: string) { MatchesClasses(g, GstPattern) }

  /**
   * The layout of a GSTIN the form accepts: 15 characters; a two-digit
   * state code, five capital letters, four digits, a capital letter, a
   * character from 1-9 or A-Z, the letter Z, and a digit or capital letter.
   */
  lemma GstShape(g: string)
    ensures ValidGst(g) <==>
      |g| == 15
      && (forall i :: 0 <= i < 2 ==> IsDigit(g[i]))
      && (forall i :: 2 <= i < 7 ==> IsUpper(g[i]))
      && (forall i :: 7 <= i < 11 ==> IsDigit(g[i]))
      && IsUpper(g[11])
      && ('1' <= g[12] <= '9' || IsUpper(g[12]))
      && g[13] == 'Z'
      && (IsDigit(g[14]) || IsUpper(g[14]))
  {
    var p := GstPattern;
    assert |p| == 15;
    assert forall i :: 0 <= i < 2 ==> p[i] == Digit;
    assert forall i :: 2 <= i < 7 ==> p[i] == UpperLetter;
    assert forall i :: 7 <= i < 11 ==> p[i] == Digit;
    assert p[11] == UpperLetter && p[12] == NonZeroDigitOrUpper && p[13] == Literal('Z') && p[14] == DigitOrUpper;
  }

  /** The GSTIN of the first sample party passes, and a lower-case one does not. */
  lemma GstExamples()
    ensures ValidGst("27AABCU9603R1ZM")
    ensures !ValidGst("27aabcu9603r1zm")
  {
    var p := GstPattern;
    assert p == [Digit, Digit, UpperLetter, UpperLetter, UpperLetter, UpperLetter, UpperLetter,
                 Digit, Digit, Digit, Digit, UpperLetter, NonZeroDigitOrUpper, Literal('Z'), DigitOrUpper];
    var good := "27AABCU9603R1ZM";
    assert forall i :: 0 <= i < 15 ==> InClass(good[i], p[i]);
    var bad := "27aabcu9603r1zm";
    assert !InClass(bad[2], p[2]);
  }

  /** The GSTIN box: at most 15 characters kept, then upper-cased. */
  function GstInput(typed: string): (r: string)
    ensures |r| <= 15 && |r| == if |typed| <= 15 then |typed| else 15
    ensures forall i :: 0 <= i < |r| ==> r[i] == UpperChar(typed[i]) && !IsLower(r[i])
  {
    Upper(Take(typed, 15))
  }

  const NameRequired := "Party name is required"
  const GstInvalid := "Invalid GST format"

  /**
   * `validate()`'s error map: the name must not be blank; an empty GSTIN is
   * accepted, any other must fit the layout.
   */
  method CollectErrors(form: PartyForm) returns (errors: map<string, string>)
    ensures errors.Keys <= {"name", "gst"}
    ensures "name" in errors <==> IsBlank(form.name)
    ensures "name" in errors ==> errors["name"] == NameRequired
    ensures "gst" in errors <==> form.gst != "" && !ValidGst(form.gst)
    ensures "gst" in errors ==> errors["gst"] == GstInvalid
    ensures errors == map[] <==> !IsBlank(form.name) && (form.gst == "" || ValidGst(form.gst))
  {
    errors := map[];
    if IsBlank(form.name) {
      errors := errors["name" := NameRequired];
    }
    if form.gst != "" && !ValidGst(form.gst) {
      errors := errors["gst" := GstInvalid];
    }
  }

  /** The result of `parseFloat`: a number, or NaN. */
  datatype Number = NaN | Num(value: int)

  /** The record handed on by a valid submit: the form, with the balances as numbers. */
  datatype Submission = Submission(form: PartyForm, openingBalance: Number, currentBalance: Option<Number>)

  /**
   * The submitted balances: the opening balance parsed; the current balance
   * is that same number in add mode and the draft's current balance, as
   * given or absent, in edit mode.
   */
  function SubmissionOf(form: PartyForm, mode: Mode, init: Option<PartyDraft>, parseFloat: string -> Number): (s: Submission)
    ensures s.form == form && s.openingBalance == parseFloat(form.openingBalance)
    ensures mode == Add ==> s.currentBalance == Some(s.openingBalance)
    ensures mode == Edit ==>
              s.currentBalance == if init.Some? && init.value.currentBalance.Some?
                                  then Some(Num(init.value.currentBalance.value)) else None
  {
    var opening := parseFloat(form.openingBalance);
    var current := match mode
      case Add => Some(opening)
      case Edit =>
        if init.Some? && init.value.currentBalance.Some? then Some(Num(init.value.currentBalance.value)) else None;
    Submission(form, opening, current)
  }

  class PartyModalState {
    const mode: Mode
    const init: Option<PartyDraft>
    var form: PartyForm
    var errors: map<string, string>
    var open: bool
    /** What the submit handler hands on, once a submit has passed validation. */
    var submitted: Option<Submission>

    constructor (mode: Mode, init: Option<PartyDraft>)
      ensures this.mode == mode && this.init == init
      ensures form == InitialForm(init) && errors == map[] && open && submitted == None
    {
      this.mode, this.init := mode, init;
      form := InitialForm(init);
      errors := map[];
      open := true;
      submitted := None;
    }

    method SetGst(typed: string)
      modifies this`form
      ensures form == old(form).(gst := GstInput(typed))
    {
      form := form.(gst := GstInput(typed));
    }

    /** `handleSubmit`: validates; only a valid form is handed on and closes the modal. */
    method HandleSubmit(parseFloat: string -> Number) returns (valid: bool)
      modifies this`errors, this`open, this`submitted
      ensures errors.Keys <= {"name", "gst"}
      ensures "name" in errors <==> IsBlank(form.name)
      ensures "name" in errors ==> errors["name"] == NameRequired
      ensures "gst" in errors <==> form.gst != "" && !ValidGst(form.gst)
      ensures "gst" in errors ==> errors["gst"] == GstInvalid
      ensures valid <==> errors == map[]
      ensures valid <==> !IsBlank(form.name) && (form.gst == "" || ValidGst(form.gst))
      ensures valid ==> !open && submitted == Some(SubmissionOf(form, mode, init, parseFloat))
      ensures !valid ==> open == old(open) && submitted == old(submitted)
    {
      errors := CollectErrors(form);
      valid := "name" !in errors && "gst" !in errors;
      if valid {
        submitted := Some(SubmissionOf(form, mode, init, parseFloat));
        open := false;
      }
    }
  }
}
