/**
 * The pure half of `StateService`: which field a visit still lacks (the
 * `requires*` predicates and `determineStateFromVisit`), the registration
 * check in front of it (`determineNextState`), the fill-only-if-absent merge
 * of `processVisitData`, the visit a first update creates
 * (`getOrCreateStateData`) and the seeding of a visit from its bill
 * (`setVisitData`).
 */
module NextState {
  import opened Wrappers
  import opened Domain
  import JavaLong

  predicate RequiresSpk(t: VisitType) { t == Monitoring || t == Tagihan }

  predicate RequiresCaption(t: VisitType) { t != Survey && t != Informational }

  predicate RequiresReminder(t: VisitType) { t == Tagihan }

  predicate RequiresLimit(t: VisitType) { t == Survey }

  predicate RequiresAppointment(t: VisitType) { t == Tagihan }

  predicate RequiresAddress(t: VisitType) { t == Canvasing }

  /**
   * `determineStateFromVisit`: the state that asks for the first missing
   * field, or `Completed`; `None` stands for the `NullPointerException`
   * thrown when the visit has no type.
   */
  function DetermineStateFromVisit(v: Visit): (r: Option<State>)
    ensures r.None? <==> v.visitType.None?
    ensures r.Some? ==> r.value != AddInterested && r.value != Register
  {
    match v.visitType
    case None => None
    case Some(t) =>
      if t == Informational && v.spk.None? then Some(AddSpk)
      else if t == Informational && v.appointment.None? then Some(AddAppointment)
      else if t == Informational && v.reminderDate.None? then Some(AddReminder)
      else if RequiresSpk(t) && v.spk.None? then Some(AddSpk)
      else if RequiresCaption(t) && v.note.None? then Some(AddCaption)
      else if RequiresLimit(t) && v.plafond.None? then Some(AddLimit)
      else if RequiresAppointment(t) && v.appointment.None? then Some(AddAppointment)
      else if v.appointment.Some? && RequiresReminder(t) && v.reminderDate.None? then Some(AddReminder)
      else if v.name.None? then Some(AddName)
      else if RequiresAddress(t) && v.address.None? then Some(AddAddress)
      else if v.usaha.None? then Some(AddUsaha)
      else Some(Completed)
  }

  /**
   * `determineNextState`: `Register` for a user missing from the registry,
   * whatever the visit holds; otherwise the resolver's state.
   */
  function DetermineNextState(users: map<string, User>, v: Visit): (r: Option<State>)
    ensures v.userId !in users ==> r == Some(Register)
    ensures v.userId in users ==> r == DetermineStateFromVisit(v)
  {
    if v.userId in users then DetermineStateFromVisit(v) else Some(Register)
  }

  /** The fields a visit type asks for, in the order they are asked. */
  datatype Field = SpkField | NoteField | PlafondField | AppointmentField | ReminderField
                 | NameField | AddressField | UsahaField

  /** The checklist of each visit type, as an ordered table. */
  function Checklist(t: VisitType): seq<Field>
  {
    match t
    case Tagihan => [SpkField, NoteField, AppointmentField, ReminderField, NameField, UsahaField]
    case Monitoring => [SpkField, NoteField, NameField, UsahaField]
    case Informational => [SpkField, AppointmentField, ReminderField, NameField, UsahaField]
    case Canvasing => [NoteField, NameField, AddressField, UsahaField]
    case Survey => [PlafondField, NameField, UsahaField]
  }

  function Prompt(f: Field): State
  {
    match f
    case SpkField => AddSpk
    case NoteField => AddCaption
    case PlafondField => AddLimit
    case AppointmentField => AddAppointment
    case ReminderField => AddReminder
    case NameField => AddName
    case AddressField => AddAddress
    case UsahaField => AddUsaha
  }

  predicate Present(v: Visit, f: Field)
  {
    match f
    case SpkField => v.spk.Some?
    case NoteField => v.note.Some?
    case PlafondField => v.plafond.Some?
    case AppointmentField => v.appointment.Some?
    case ReminderField => v.reminderDate.Some?
    case NameField => v.name.Some?
    case AddressField => v.address.Some?
    case UsahaField => v.usaha.Some?
  }

  /** The prompt for the first absent field of the list, or `Completed`. */
  function FirstMissing(fs: seq<Field>, v: Visit): State
  {
    if fs == [] then Completed
    else if !Present(v, fs[0]) then Prompt(fs[0])
    else FirstMissing(fs[1..], v)
  }

  /** The resolver is exactly the ordered checklist of the visit's type. */
  lemma ResolverFollowsChecklist(v: Visit, t: VisitType)
    requires v.visitType == Some(t)
    ensures DetermineStateFromVisit(v) == Some(FirstMissing(Checklist(t), v))
  {
    match t
    case Tagihan => TagihanChecklist(v);
    case Monitoring => MonitoringChecklist(v);
    case Informational => InformationalChecklist(v);
    case Canvasing => CanvasingChecklist(v);
    case Survey => SurveyChecklist(v);
  }

  lemma TagihanChecklist(v: Visit)
    requires v.visitType == Some(Tagihan)
    ensures DetermineStateFromVisit(v) == Some(FirstMissing(Checklist(Tagihan), v))
  {
    var fs := Checklist(Tagihan);
    assert fs[0..] == fs;
    FirstMissingUnfold(fs, v, 0);
    FirstMissingUnfold(fs, v, 1);
    FirstMissingUnfold(fs, v, 2);
    FirstMissingUnfold(fs, v, 3);
    FirstMissingUnfold(fs, v, 4);
    FirstMissingUnfold(fs, v, 5);
    FirstMissingUnfold(fs, v, 6);
  }

  lemma MonitoringChecklist(v: Visit)
    requires v.visitType == Some(Monitoring)
    ensures DetermineStateFromVisit(v) == Some(FirstMissing(Checklist(Monitoring), v))
  {
    var fs := Checklist(Monitoring);
    assert fs[0..] == fs;
    FirstMissingUnfold(fs, v, 0);
    FirstMissingUnfold(fs, v, 1);
    FirstMissingUnfold(fs, v, 2);
    FirstMissingUnfold(fs, v, 3);
    FirstMissingUnfold(fs, v, 4);
  }

  lemma InformationalChecklist(v: Visit)
    requires v.visitType == Some(Informational)
    ensures DetermineStateFromVisit(v) == Some(FirstMissing(Checklist(Informational), v))
  {
    var fs := Checklist(Informational);
    assert fs[0..] == fs;
    FirstMissingUnfold(fs, v, 0);
    FirstMissingUnfold(fs, v, 1);
    FirstMissingUnfold(fs, v, 2);
    FirstMissingUnfold(fs, v, 3);
    FirstMissingUnfold(fs, v, 4);
    FirstMissingUnfold(fs, v, 5);
  }

  lemma CanvasingChecklist(v: Visit)
    requires v.visitType == Some(Canvasing)
    ensures DetermineStateFromVisit(v) == Some(FirstMissing(Checklist(Canvasing), v))
  {
    var fs := Checklist(Canvasing);
    assert fs[0..] == fs;
    FirstMissingUnfold(fs, v, 0);
    FirstMissingUnfold(fs, v, 1);
    FirstMissingUnfold(fs, v, 2);
    FirstMissingUnfold(fs, v, 3);
    FirstMissingUnfold(fs, v, 4);
  }

  lemma SurveyChecklist(v: Visit)
    requires v.visitType == Some(Survey)
    ensures DetermineStateFromVisit(v) == Some(FirstMissing(Checklist(Survey), v))
  {
    var fs := Checklist(Survey);
    assert fs[0..] == fs;
    FirstMissingUnfold(fs, v, 0);
    FirstMissingUnfold(fs, v, 1);
    FirstMissingUnfold(fs, v, 2);
    FirstMissingUnfold(fs, v, 3);
  }

  /** `FirstMissing` read as a scan from position `k`. */
  lemma {:induction false} FirstMissingUnfold(fs: seq<Field>, v: Visit, k: nat)
    requires k <= |fs|
    ensures FirstMissing(fs[k..], v)
            == if k == |fs| then Completed
               else if !Present(v, fs[k]) then Prompt(fs[k])
               else FirstMissing(fs[k + 1..], v)
  {
    if k < |fs| {
      assert fs[k..][0] == fs[k];
      assert fs[k..][1..] == fs[k + 1..];
    }
  }

  lemma {:induction false} FirstMissingCompleted(fs: seq<Field>, v: Visit)
    ensures FirstMissing(fs, v) == Completed <==> forall i :: 0 <= i < |fs| ==> Present(v, fs[i])
  {
    if fs != [] {
      FirstMissingCompleted(fs[1..], v);
      assert forall i :: 1 <= i < |fs| ==> fs[i] == fs[1..][i - 1];
    }
  }

  lemma {:induction false} FirstMissingIsFirst(fs: seq<Field>, v: Visit)
    requires FirstMissing(fs, v) != Completed
    ensures exists k :: 0 <= k < |fs| && !Present(v, fs[k]) && Prompt(fs[k]) == FirstMissing(fs, v)
                        && forall i :: 0 <= i < k ==> Present(v, fs[i])
  {
    if Present(v, fs[0]) {
      FirstMissingIsFirst(fs[1..], v);
      var k :| 0 <= k < |fs[1..]| && !Present(v, fs[1..][k]) && Prompt(fs[1..][k]) == FirstMissing(fs[1..], v)
               && forall i :: 0 <= i < k ==> Present(v, fs[1..][i]);
      assert fs[k + 1] == fs[1..][k];
      assert forall i :: 1 <= i < k + 1 ==> fs[i] == fs[1..][i - 1];
    } else {
      assert !Present(v, fs[0]);
    }
  }

  /** `Completed` exactly when every field the visit's type asks for is present. */
  lemma CompletedIffChecklistPresent(v: Visit, t: VisitType)
    requires v.visitType == Some(t)
    ensures DetermineStateFromVisit(v) == Some(Completed)
            <==> forall i :: 0 <= i < |Checklist(t)| ==> Present(v, Checklist(t)[i])
  {
    ResolverFollowsChecklist(v, t);
    FirstMissingCompleted(Checklist(t), v);
  }

  /**
   * Any other answer asks for an absent field of the checklist, and every
   * field listed before it is present.
   */
  lemma ResolverAsksFirstAbsentField(v: Visit, t: VisitType)
    requires v.visitType == Some(t) && DetermineStateFromVisit(v) != Some(Completed)
    ensures exists k :: 0 <= k < |Checklist(t)| && !Present(v, Checklist(t)[k])
                        && DetermineStateFromVisit(v) == Some(Prompt(Checklist(t)[k]))
                        && forall i :: 0 <= i < k ==> Present(v, Checklist(t)[i])
  {
    ResolverFollowsChecklist(v, t);
    FirstMissingIsFirst(Checklist(t), v);
  }

  /** An informational visit is asked for SPK, appointment and reminder date before anything else. */
  lemma InformationalAsksSpkAppointmentReminderFirst(v: Visit)
    requires v.visitType == Some(Informational)
    ensures v.spk.None? ==> DetermineStateFromVisit(v) == Some(AddSpk)
    ensures v.spk.Some? && v.appointment.None? ==> DetermineStateFromVisit(v) == Some(AddAppointment)
    ensures v.spk.Some? && v.appointment.Some? && v.reminderDate.None? ==> DetermineStateFromVisit(v) == Some(AddReminder)
  {
  }

  /** An unregistered user is sent to registration whatever the visit holds. */
  lemma UnregisteredAlwaysRegister(users: map<string, User>, v: Visit)
    requires v.userId !in users
    ensures DetermineNextState(users, v) == Some(Register)
  {
  }

  /** `Merge` keeps every present field and takes the update's value only to fill a gap. */
  function Fill<T>(current: Option<T>, update: Option<T>): (r: Option<T>)
    ensures current.Some? ==> r == current
    ensures current.None? ==> r == update
  {
    if update.Some? && current.None? then update else current
  }

  /**
   * `processVisitData`'s copy of the update into the session visit: type,
   * visit date, note, image, appointment, plafond, reminder date, name,
   * address and interest are copied only where the session has none; SPK,
   * usaha, the bill amounts and the ids are never taken from the update.
   */
  function Merge(v: Visit, u: Visit): (r: Visit)
    ensures Extends(v, r)
    ensures OnlyFromUpdate(v, u, r)
    ensures r.spk == v.spk && r.usaha == v.usaha && r.userId == v.userId && r.id == v.id
    ensures r.debitTray == v.debitTray && r.interest == v.interest && r.principal == v.principal
    ensures r.penalty == v.penalty
  {
    v.(visitType := Fill(v.visitType, u.visitType),
       visitDate := Fill(v.visitDate, u.visitDate),
       note := Fill(v.note, u.note),
       imageUrl := Fill(v.imageUrl, u.imageUrl),
       appointment := Fill(v.appointment, u.appointment),
       plafond := Fill(v.plafond, u.plafond),
       reminderDate := Fill(v.reminderDate, u.reminderDate),
       name := Fill(v.name, u.name),
       address := Fill(v.address, u.address),
       interested := Fill(v.interested, u.interested))
  }

  /** Every field present in `v` is present, with the same value, in `w`. */
  predicate Extends(v: Visit, w: Visit)
  {
    v.userId == w.userId
    && (v.id.Some? ==> w.id == v.id)
    && (v.visitType.Some? ==> w.visitType == v.visitType)
    && (v.visitDate.Some? ==> w.visitDate == v.visitDate)
    && (v.spk.Some? ==> w.spk == v.spk)
    && (v.name.Some? ==> w.name == v.name)
    && (v.address.Some? ==> w.address == v.address)
    && (v.debitTray.Some? ==> w.debitTray == v.debitTray)
    && (v.interest.Some? ==> w.interest == v.interest)
    && (v.principal.Some? ==> w.principal == v.principal)
    && (v.plafond.Some? ==> w.plafond == v.plafond)
    && (v.penalty.Some? ==> w.penalty == v.penalty)
    && (v.note.Some? ==> w.note == v.note)
    && (v.imageUrl.Some? ==> w.imageUrl == v.imageUrl)
    && (v.appointment.Some? ==> w.appointment == v.appointment)
    && (v.reminderDate.Some? ==> w.reminderDate == v.reminderDate)
    && (v.usaha.Some? ==> w.usaha == v.usaha)
    && (v.interested.Some? ==> w.interested == v.interested)
  }

  /** Every field of `r` is the old value, or is the update's value where the old one was absent. */
  predicate OnlyFromUpdate(v: Visit, u: Visit, r: Visit)
  {
    (r.visitType == v.visitType || (v.visitType.None? && r.visitType == u.visitType))
    && (r.visitDate == v.visitDate || (v.visitDate.None? && r.visitDate == u.visitDate))
    && (r.note == v.note || (v.note.None? && r.note == u.note))
    && (r.imageUrl == v.imageUrl || (v.imageUrl.None? && r.imageUrl == u.imageUrl))
    && (r.appointment == v.appointment || (v.appointment.None? && r.appointment == u.appointment))
    && (r.plafond == v.plafond || (v.plafond.None? && r.plafond == u.plafond))
    && (r.reminderDate == v.reminderDate || (v.reminderDate.None? && r.reminderDate == u.reminderDate))
    && (r.name == v.name || (v.name.None? && r.name == u.name))
    && (r.address == v.address || (v.address.None? && r.address == u.address))
    && (r.interested == v.interested || (v.interested.None? && r.interested == u.interested))
    && r.id == v.id && r.userId == v.userId && r.spk == v.spk && r.usaha == v.usaha
    && r.debitTray == v.debitTray && r.interest == v.interest && r.principal == v.principal
    && r.penalty == v.penalty
  }

  /** Re-submitting the session's own visit, as every field handler does, changes nothing. */
  lemma MergeSelf(v: Visit)
    ensures Merge(v, v) == v
  {
  }

  /** Applying the same update twice is the same as applying it once. */
  lemma MergeIdempotent(v: Visit, u: Visit)
    ensures Merge(Merge(v, u), u) == Merge(v, u)
  {
  }

  /** `getOrCreateStateData`'s new visit: the update's fields except id, usaha and interest, owned by `jid`. */
  function NewSessionVisit(jid: string, u: Visit): (r: Visit)
    ensures r.userId == jid && r.id.None? && r.usaha.None? && r.interested.None?
  {
    Visit(None, jid, u.visitType, u.visitDate, u.spk, u.name, u.address, u.debitTray,
          u.interest, u.principal, u.plafond, u.penalty, u.note, u.imageUrl,
          u.appointment, u.reminderDate, None, None)
  }

  /**
   * After the first update the session visit holds every field of the
   * update except its id and usaha, and belongs to `jid`.
   */
  lemma FirstUpdateCopiesUpdate(jid: string, u: Visit)
    ensures Merge(NewSessionVisit(jid, u), u) == u.(id := None, userId := jid, usaha := None)
  {
  }

  /**
   * `setVisitData`'s seeding from the bill: SPK from the update, then
   * debit tray, interest (the bill's last interest), principal, penalty
   * (interest penalty plus principal penalty, as a Java `long` sum),
   * plafond, name and address from the bill.
   */
  function SeedFromBill(v: Visit, spk: string, b: Bills): (r: Visit)
    ensures r.spk == Some(spk) && r.name == Some(b.name) && r.address == Some(b.address)
    ensures r.debitTray == Some(b.debitTray) && r.plafond == Some(b.plafond)
    ensures r.interest == Some(b.lastInterest) && r.principal == Some(b.principal)
    ensures r.penalty == Some(JavaLong.Add(b.penaltyInterest, b.penaltyPrincipal))
    ensures r.(spk := v.spk, name := v.name, address := v.address, debitTray := v.debitTray,
               plafond := v.plafond, interest := v.interest, principal := v.principal,
               penalty := v.penalty) == v
  {
    v.(spk := Some(spk), debitTray := Some(b.debitTray), interest := Some(b.lastInterest),
       principal := Some(b.principal), penalty := Some(JavaLong.Add(b.penaltyInterest, b.penaltyPrincipal)),
       plafond := Some(b.plafond), name := Some(b.name), address := Some(b.address))
  }

  /** Once seeded from a bill, the visit is never asked for its SPK or its name again. */
  lemma SeededVisitHasSpkAndName(v: Visit, spk: string, b: Bills, u: Visit)
    requires Merge(SeedFromBill(v, spk, b), u).visitType.Some?
    ensures DetermineStateFromVisit(Merge(SeedFromBill(v, spk, b), u)) != Some(AddSpk)
    ensures DetermineStateFromVisit(Merge(SeedFromBill(v, spk, b), u)) != Some(AddName)
  {
  }
}
