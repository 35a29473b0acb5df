/** The new-session form: its validator, its change handlers, and the list of
    invited participants with the payload it turns into. */
module CreateSession {
  import opened Common
  import opened Text
  import opened JsNumber

  // ---------------------------------------------------------------- form

  /** The form state. `date` is an instant in milliseconds; `duration` holds
      the number 120 until the user types, then the text of the number input. */
  datatype SessionForm = SessionForm(
    title: string,
    description: string,
    date: Option<int>,
    duration: JsValue,
    location: string,
    status: string)

  /** One message per checked field; `""` means no error. */
  datatype SessionErrors = SessionErrors(title: string, date: string, duration: string, location: string)

  const NoErrors := SessionErrors("", "", "", "")

  /** One hour, the default distance of the proposed date from now. */
  const HourMs := 3600000

  function InitialForm(now: int): SessionForm {
    SessionForm("", "", Some(now + HourMs), Num(120), "", "pending")
  }

  const TitleRequired := "Session title is required"
  const DateRequired := "Date and time are required"
  const DateInPast := "Session date must be in the future"
  const DurationNotPositive := "Duration must be greater than 0"
  const LocationRequired := "Location is required"

  /** JavaScript's `d <= 0`: a string is read as a number first, and a
      comparison with `NaN` is false. */
  predicate AtMostZero(d: JsValue) {
    match d
    case Num(n) => n <= 0
    case Str(s) => Number(s).Some? && Number(s).value <= 0.0
    case Bool(b) => !b
    case Null => true
    case _ => false
  }

  /** `!duration || duration <= 0`. */
  predicate DurationRejected(d: JsValue) {
    !Truthy(d) || AtMostZero(d)
  }

  /** What the form accepts: a non-blank title and location, a date that is
      not before `now`, and a duration that is set and above zero. */
  predicate SessionFormValid(form: SessionForm, now: int) {
    && Trim(form.title) != ""
    && form.date.Some? && form.date.value >= now
    && !DurationRejected(form.duration)
    && Trim(form.location) != ""
  }

  /** `validateForm`, with the current instant as a parameter: errors start out
      empty and only a failing field gets its message. */
  method ValidateForm(form: SessionForm, now: int) returns (isValid: bool, errors: SessionErrors)
    ensures isValid <==> SessionFormValid(form, now)
    ensures isValid <==> errors == NoErrors
    ensures errors.title == (if Trim(form.title) == "" then TitleRequired else "")
    ensures errors.date == DateRequired <==> form.date.None?
    ensures errors.date == DateInPast <==> form.date.Some? && form.date.value < now
    ensures errors.date == "" <==> form.date.Some? && form.date.value >= now
    ensures errors.duration == (if DurationRejected(form.duration) then DurationNotPositive else "")
    ensures errors.location == (if Trim(form.location) == "" then LocationRequired else "")
  {
    isValid := true;
    errors := SessionErrors("", "", "", "");

    if Trim(form.title) == "" {
      errors := errors.(title := TitleRequired);
      isValid := false;
    }
    assert isValid <==> errors == NoErrors;
    assert isValid <==> Trim(form.title) != "";

    if form.date.None? {
      errors := errors.(date := DateRequired);
      isValid := false;
    } else if form.date.value < now {
      errors := errors.(date := DateInPast);
      isValid := false;
    }
    assert isValid <==> errors == NoErrors;
    assert isValid <==> Trim(form.title) != "" && form.date.Some? && form.date.value >= now;

    if !Truthy(form.duration) || AtMostZero(form.duration) {
      errors := errors.(duration := DurationNotPositive);
      isValid := false;
    }
    assert isValid <==> errors == NoErrors;
    assert isValid <==> Trim(form.title) != "" && form.date.Some? && form.date.value >= now
                        && !DurationRejected(form.duration);

    if Trim(form.location) == "" {
      errors := errors.(location := LocationRequired);
      isValid := false;
    }
  }

  /** A typed positive whole number of minutes passes the duration check. */
  lemma TypedDurationAccepted(n: nat)
    requires n > 0
    ensures !DurationRejected(Str(NatToString(n)))
  {
    NumberOfNatToString(n);
    NatToStringDigits(n);
  }

  /** An emptied input and a typed zero do not pass the duration check. */
  lemma EmptyOrZeroDurationRejected()
    ensures DurationRejected(Str(""))
    ensures DurationRejected(Str(NatToString(0)))
  {
    NumberOfNatToString(0);
  }

  /** The form as first shown already has a valid date and duration: it is
      accepted as soon as the title and the location are filled in. */
  lemma InitialFormNeedsTitleAndLocation(now: int, title: string, location: string)
    ensures SessionFormValid(InitialForm(now).(title := title, location := location), now)
            <==> Trim(title) != "" && Trim(location) != ""
  {
    var form := InitialForm(now).(title := title, location := location);
    assert form.date == Some(now + HourMs) && form.duration == Num(120);
    assert !DurationRejected(form.duration);
  }

  datatype FormField = TitleField | DescriptionField | DurationField | LocationField

  datatype FormPage = FormPage(form: SessionForm, errors: SessionErrors)

  /** The error shown under a field; the description has none. */
  function ErrorOf(errors: SessionErrors, field: FormField): string {
    match field
    case TitleField => errors.title
    case DescriptionField => ""
    case DurationField => errors.duration
    case LocationField => errors.location
  }

  /** `handleChange`: stores the input's text under its name (the duration
      becomes text) and clears that field's error if one is shown. */
  function HandleChange(page: FormPage, field: FormField, value: string): (r: FormPage)
    ensures field == TitleField ==> r.form == page.form.(title := value)
    ensures field == DescriptionField ==> r.form == page.form.(description := value)
    ensures field == DurationField ==> r.form == page.form.(duration := Str(value))
    ensures field == LocationField ==> r.form == page.form.(location := value)
    ensures ErrorOf(r.errors, field) == ""
    ensures r.errors.date == page.errors.date
    ensures forall other :: other != field ==> ErrorOf(r.errors, other) == ErrorOf(page.errors, other)
  {
    var form := match field
      case TitleField => page.form.(title := value)
      case DescriptionField => page.form.(description := value)
      case DurationField => page.form.(duration := Str(value))
      case LocationField => page.form.(location := value);
    var errors :=
      if ErrorOf(page.errors, field) != "" then
        match field
        case TitleField => page.errors.(title := "")
        case DescriptionField => page.errors
        case DurationField => page.errors.(duration := "")
        case LocationField => page.errors.(location := "")
      else page.errors;
    FormPage(form, errors)
  }

  /** `handleDateChange`: a cleared picker changes nothing; a picked date is
      stored and its error cleared. */
  function HandleDateChange(page: FormPage, newDate: Option<int>): (r: FormPage)
    ensures newDate.None? ==> r == page
    ensures newDate.Some? ==> r.form == page.form.(date := newDate) && r.errors == page.errors.(date := "")
  {
    if newDate.None? then page
    else FormPage(page.form.(date := newDate), page.errors.(date := ""))
  }

  // ---------------------------------------------------------------- participants

  datatype Musician = Musician(id: string, firstName: string, lastName: string, email: string)

  /** An invited musician with the role typed for them. */
  datatype Participant = Participant(musician: Musician, role: string)

  /** The participant list, the musician picked in the selector and the role
      typed beside it. */
  datatype Picker = Picker(participants: seq<Participant>, selected: Option<Musician>, role: string)

  const InitialPicker := Picker([], None, "")

  predicate Contains(ps: seq<Participant>, id: string) {
    exists i :: 0 <= i < |ps| && ps[i].musician.id == id
  }

  predicate DistinctIds(ps: seq<Participant>) {
    forall i, j :: 0 <= i < j < |ps| ==> ps[i].musician.id != ps[j].musician.id
  }

  /** `handleAddParticipant`: appends the picked musician with the typed role
      and resets the picker, unless nothing is picked or the musician is
      already listed, in which case nothing changes. */
  function AddParticipant(p: Picker): (r: Picker)
    ensures p.selected.Some? && !Contains(p.participants, p.selected.value.id) ==>
              && r.participants == p.participants + [Participant(p.selected.value, p.role)]
              && r.selected.None? && r.role == ""
    ensures p.selected.None? || Contains(p.participants, p.selected.value.id) ==> r == p
    ensures DistinctIds(p.participants) ==> DistinctIds(r.participants)
  {
    if p.selected.Some? && !Contains(p.participants, p.selected.value.id) then
      Picker(p.participants + [Participant(p.selected.value, p.role)], None, "")
    else p
  }

  /** `handleRemoveParticipant`: keeps the participants with another id, in
      order. */
  function RemoveParticipant(ps: seq<Participant>, id: string): (r: seq<Participant>)
    ensures forall i :: 0 <= i < |r| ==> r[i].musician.id != id
    ensures multiset(r) <= multiset(ps)
  {
    if |ps| == 0 then []
    else
      var rest := RemoveParticipant(ps[1..], id);
      assert multiset(ps) == multiset{ps[0]} + multiset(ps[1..]) by {
        assert ps == [ps[0]] + ps[1..];
      }
      if ps[0].musician.id == id then rest
      else
        assert forall i :: 1 <= i < |rest| + 1 ==> ([ps[0]] + rest)[i] == rest[i - 1];
        [ps[0]] + rest
  }

  /** Removing keeps every participant with another id. */
  lemma {:induction false} RemoveKeepsOthers(ps: seq<Participant>, id: string)
    ensures forall i :: 0 <= i < |ps| && ps[i].musician.id != id ==> ps[i] in RemoveParticipant(ps, id)
  {
    if |ps| > 0 {
      RemoveKeepsOthers(ps[1..], id);
      forall i | 1 <= i < |ps| ensures ps[i] == ps[1..][i - 1] {
      }
    }
  }

  /** Whatever is drawn from the tail of a list without repeated ids avoids
      the id of its head. */
  lemma DrawnFromTailAvoidsHead(ps: seq<Participant>, rest: seq<Participant>)
    requires DistinctIds(ps) && |ps| > 0 && multiset(rest) <= multiset(ps[1..])
    ensures forall j :: 0 <= j < |rest| ==> rest[j].musician.id != ps[0].musician.id
  {
    forall j | 0 <= j < |rest| ensures rest[j].musician.id != ps[0].musician.id {
      assert rest[j] in multiset(ps[1..]);
      var k :| 0 <= k < |ps[1..]| && ps[1..][k] == rest[j];
      assert ps[1..][k] == ps[k + 1];
    }
  }

  /** A participant whose id the list lacks can go in front of it. */
  lemma PrependKeepsIdsDistinct(p: Participant, rest: seq<Participant>)
    requires DistinctIds(rest)
    requires forall j :: 0 <= j < |rest| ==> rest[j].musician.id != p.musician.id
    ensures DistinctIds([p] + rest)
  {
    var r := [p] + rest;
    forall i, j | 0 <= i < j < |r| ensures r[i].musician.id != r[j].musician.id {
      assert r[j] == rest[j - 1];
      if i > 0 {
        assert r[i] == rest[i - 1];
      }
    }
  }

  /** Removing keeps a list free of repeated ids. */
  lemma {:induction false} RemoveKeepsIdsDistinct(ps: seq<Participant>, id: string)
    requires DistinctIds(ps)
    ensures DistinctIds(RemoveParticipant(ps, id))
  {
    if |ps| > 0 {
      var tail := ps[1..];
      assert DistinctIds(tail) by {
        forall i, j | 0 <= i < j < |tail| ensures tail[i].musician.id != tail[j].musician.id {
          assert tail[i] == ps[i + 1] && tail[j] == ps[j + 1];
        }
      }
      RemoveKeepsIdsDistinct(tail, id);
      var rest := RemoveParticipant(tail, id);
      if ps[0].musician.id != id {
        DrawnFromTailAvoidsHead(ps, rest);
        PrependKeepsIdsDistinct(ps[0], rest);
      }
    }
  }

  /** In a list without repeated ids, removing a listed id deletes exactly
      that entry and keeps the others in order. */
  lemma {:induction false} RemoveListed(ps: seq<Participant>, k: int)
    requires DistinctIds(ps) && 0 <= k < |ps|
    ensures RemoveParticipant(ps, ps[k].musician.id) == ps[..k] + ps[k + 1..]
  {
    var id := ps[k].musician.id;
    var tail := ps[1..];
    if k > 0 {
      assert DistinctIds(tail) by {
        forall i, j | 0 <= i < j < |tail| ensures tail[i].musician.id != tail[j].musician.id {
          assert tail[i] == ps[i + 1] && tail[j] == ps[j + 1];
        }
      }
      assert tail[k - 1] == ps[k];
      RemoveListed(tail, k - 1);
      assert ps[0].musician.id != id;
      assert RemoveParticipant(ps, id) == [ps[0]] + RemoveParticipant(tail, id);
      DropHead(ps, k);
    } else {
      forall i | 0 <= i < |tail| ensures tail[i].musician.id != id {
        assert tail[i] == ps[i + 1];
      }
      RemoveAbsent(tail, id);
    }
  }

  lemma DropHead<T>(xs: seq<T>, k: int)
    requires 0 < k < |xs|
    ensures xs[..k] + xs[k + 1..] == [xs[0]] + (xs[1..][..k - 1] + xs[1..][k..])
  {
    assert xs[1..][..k - 1] == xs[1..k];
    assert xs[1..][k..] == xs[k + 1..];
    assert xs[..k] == [xs[0]] + xs[1..k];
  }

  /** Removing an id that is not listed changes nothing. */
  lemma {:induction false} RemoveAbsent(ps: seq<Participant>, id: string)
    requires forall i :: 0 <= i < |ps| ==> ps[i].musician.id != id
    ensures RemoveParticipant(ps, id) == ps
  {
    if |ps| > 0 {
      RemoveAbsent(ps[1..], id);
      assert ps == [ps[0]] + ps[1..];
    }
  }

  /** What the user can do to the picker. */
  datatype PickerAction = Select(musician: Option<Musician>) | TypeRole(role: string) | Add | Remove(id: string)

  function Step(p: Picker, a: PickerAction): Picker {
    match a
    case Select(m) => p.(selected := m)
    case TypeRole(role) => p.(role := role)
    case Add => AddParticipant(p)
    case Remove(id) => p.(participants := RemoveParticipant(p.participants, id))
  }

  lemma StepKeepsIdsDistinct(p: Picker, a: PickerAction)
    requires DistinctIds(p.participants)
    ensures DistinctIds(Step(p, a).participants)
  {
    if a.Remove? {
      RemoveKeepsIdsDistinct(p.participants, a.id);
    }
  }

  function Run(p: Picker, actions: seq<PickerAction>): Picker
    decreases |actions|
  {
    if |actions| == 0 then p else Run(Step(p, actions[0]), actions[1..])
  }

  /** No sequence of picks, adds and removals lists a musician twice. */
  lemma {:induction false} RunKeepsIdsDistinct(p: Picker, actions: seq<PickerAction>)
    requires DistinctIds(p.participants)
    ensures DistinctIds(Run(p, actions).participants)
    decreases |actions|
  {
    if |actions| > 0 {
      StepKeepsIdsDistinct(p, actions[0]);
      RunKeepsIdsDistinct(Step(p, actions[0]), actions[1..]);
    }
  }

  /** One invitation of the request body. */
  datatype ParticipantPayload = ParticipantPayload(userId: string, role: Option<string>, status: string)

  /** `participants.map(...)`: one pending invitation per participant, in
      order, with an empty role left out. */
  function ParticipantData(ps: seq<Participant>): (r: seq<ParticipantPayload>)
    ensures |r| == |ps|
    ensures forall i :: 0 <= i < |ps| ==>
              && r[i].userId == ps[i].musician.id
              && r[i].status == "pending"
              && (r[i].role.None? <==> ps[i].role == "")
              && (ps[i].role != "" ==> r[i].role == Some(ps[i].role))
  {
    seq(|ps|, i requires 0 <= i < |ps| =>
      ParticipantPayload(ps[i].musician.id, if ps[i].role != "" then Some(ps[i].role) else None, "pending"))
  }

  /** A list built with the picker invites each user at most once. */
  lemma PayloadInvitesEachUserOnce(actions: seq<PickerAction>)
    ensures var r := ParticipantData(Run(InitialPicker, actions).participants);
            forall i, j :: 0 <= i < j < |r| ==> r[i].userId != r[j].userId
  {
    RunKeepsIdsDistinct(InitialPicker, actions);
  }
}
