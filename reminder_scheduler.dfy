/**
 * `ReminderScheduler.sendReminder`, the 07:30 Jakarta job: every stored
 * visit whose reminder date is today, and whose agent id is not blank,
 * gets one reminder text sent to that agent.
 */
module ReminderScheduler {
  import opened Wrappers
  import opened JavaText
  import Dates
  import opened Domain
  import opened Stores
  import CurrencyUtil
  import opened Reports

  const ReminderHeader := "🔔 *REMINDER KUNJUNGAN HARI INI*\n\n"
  const ReminderFooter := "\n_Jangan lupa kunjungan hari ini!_"
  const NameTag := "Nama: "
  const SpkTag := "SPK: "
  const AddressTag := "Alamat: "
  /** Printed with no space and no line break after it, as the source does. */
  const AppointmentTag := "Janji Bayar:"
  const NoteTag := "\nCatatan: "

  /** The selection filter of `sendReminder`. */
  predicate DueToday(v: Visit, today: Dates.Date) { v.reminderDate == Some(today) }

  /** The second filter: a visit whose agent id is blank is skipped. */
  predicate HasRecipient(v: Visit) { !IsBlank(v.userId) }

  /** A missing value prints as "-". */
  function OrDash(o: Option<string>): (r: string)
    ensures o.Some? ==> r == o.value
    ensures o.None? ==> r == "-"
  {
    if o.Some? then o.value else "-"
  }

  /** The appointment part: present only for an amount above zero. */
  function AppointmentPart(v: Visit): (r: string)
    ensures r != [] <==> v.appointment.Some? && v.appointment.value > 0
    ensures r != [] ==> r == AppointmentTag + CurrencyUtil.FormatRupiah(v.appointment)
  {
    if v.appointment.Some? && v.appointment.value > 0 then AppointmentTag + CurrencyUtil.FormatRupiah(v.appointment)
    else ""
  }

  /** The note part: present only for a note that is not blank. */
  function NotePart(v: Visit): (r: string)
    ensures r != [] <==> v.note.Some? && !IsBlank(v.note.value)
    ensures r != [] ==> r == NoteTag + v.note.value + "\n"
  {
    if v.note.Some? && !IsBlank(v.note.value) then NoteTag + v.note.value + "\n" else ""
  }

  /** The three lines every reminder carries. */
  function FixedLines(v: Visit): string
  {
    NameTag + OrDash(v.name) + "\n" + SpkTag + OrDash(v.spk) + "\n" + AddressTag + OrDash(v.address) + "\n"
  }

  /** `buildReminderMessage`. */
  function ReminderMessage(v: Visit): (m: string)
    ensures StartsWith(m, ReminderHeader + FixedLines(v))
    ensures |m| >= |ReminderFooter| && m[|m| - |ReminderFooter|..] == ReminderFooter
  {
    var head := ReminderHeader + FixedLines(v);
    var m := head + AppointmentPart(v) + NotePart(v) + ReminderFooter;
    assert m[..|head|] == head;
    assert m[|m| - |ReminderFooter|..] == ReminderFooter;
    m
  }

  /** An amount of zero or less is not shown: the text is the one for no appointment. */
  lemma NonPositiveAppointmentHidden(v: Visit)
    requires v.appointment.Some? && v.appointment.value <= 0
    ensures ReminderMessage(v) == ReminderMessage(v.(appointment := None))
  {
  }

  /** A blank note is not shown: the text is the one for no note. */
  lemma BlankNoteHidden(v: Visit)
    requires v.note.Some? && IsBlank(v.note.value)
    ensures ReminderMessage(v) == ReminderMessage(v.(note := None))
  {
  }

  /** The text depends on nothing but name, SPK, address, appointment and note. */
  lemma ReminderShowsOnlyItsFields(v: Visit, w: Visit)
    requires v.name == w.name && v.spk == w.spk && v.address == w.address
    requires v.appointment == w.appointment && v.note == w.note
    ensures ReminderMessage(v) == ReminderMessage(w)
  {
  }

  /** The reminder of one visit, to its agent. */
  function ReminderOf(v: Visit): Outbound { TextTo(v.userId, ReminderMessage(v)) }

  /** The messages `render` makes for `due` in order, skipping visits without a recipient. */
  function Messages(due: seq<Visit>, render: Visit -> Outbound): (r: seq<Outbound>)
    ensures |r| <= |due|
  {
    if due == [] then []
    else
      var last := due[|due| - 1];
      Messages(due[..|due| - 1], render) + (if HasRecipient(last) then [render(last)] else [])
  }

  /** One more visit adds its message, if it has a recipient. */
  lemma MessagesStep(due: seq<Visit>, render: Visit -> Outbound, i: nat)
    requires i < |due|
    ensures Messages(due[..i + 1], render)
            == Messages(due[..i], render) + (if HasRecipient(due[i]) then [render(due[i])] else [])
  {
    assert due[..i + 1][..i] == due[..i];
  }

  /** The stored visits due today, in store order. */
  function DueVisits(saved: seq<Visit>, today: Dates.Date): (due: seq<Visit>)
    ensures forall v :: v in due <==> v in saved && DueToday(v, today)
  {
    Filter(saved, (v: Visit) => DueToday(v, today))
  }

  /** What one run of the job sends, given the stored visits and today's Jakarta date. */
  function Reminders(saved: seq<Visit>, today: Dates.Date): seq<Outbound>
  {
    Messages(DueVisits(saved, today), ReminderOf)
  }

  /** A message is made for a visit exactly when it has a recipient. */
  lemma {:induction false} MessagesExact(due: seq<Visit>, render: Visit -> Outbound, m: Outbound)
    ensures m in Messages(due, render) <==> exists v :: v in due && HasRecipient(v) && m == render(v)
  {
    if due != [] {
      var init := due[..|due| - 1];
      var last := due[|due| - 1];
      MessagesExact(init, render, m);
      assert due == init + [last];
      if exists v :: v in due && HasRecipient(v) && m == render(v) {
        var v :| v in due && HasRecipient(v) && m == render(v);
        if v != last {
          assert v in init;
        }
      }
    }
  }

  /**
   * The job reminds exactly the visits due today that have a recipient:
   * each message is the reminder of such a visit, and each such visit
   * gets its reminder.
   */
  lemma RemindersExact(saved: seq<Visit>, today: Dates.Date, m: Outbound)
    ensures m in Reminders(saved, today) <==>
            exists v :: v in saved && DueToday(v, today) && HasRecipient(v) && m == ReminderOf(v)
  {
    MessagesExact(DueVisits(saved, today), ReminderOf, m);
  }

  /** Every reminder goes to the agent of a visit due today, and no reminder goes to a blank id. */
  lemma RemindersGoToAgents(saved: seq<Visit>, today: Dates.Date, m: Outbound)
    requires m in Reminders(saved, today)
    ensures !IsBlank(m.phone) && exists v :: v in saved && DueToday(v, today) && m.phone == v.userId
  {
    RemindersExact(saved, today, m);
  }

  /** With no visit due today nothing is sent. */
  lemma NoneDueNothingSent(saved: seq<Visit>, today: Dates.Date)
    requires forall v :: v in saved ==> !DueToday(v, today)
    ensures Reminders(saved, today) == []
  {
  }

  /**
   * `Flux.fromIterable(visits).filter(...).flatMap(this::sendReminderMessage)`:
   * hand `render`'s message for each visit with a recipient to the gateway,
   * taken in order. A failed send is logged and ignored, so the log holds
   * every message handed over.
   */
  method SendEach(outbox: Outbox, due: seq<Visit>, render: Visit -> Outbound)
    modifies outbox
    ensures outbox.sent == old(outbox.sent) + Messages(due, render)
  {
    var i := 0;
    while i < |due|
      invariant 0 <= i <= |due|
      invariant outbox.sent == old(outbox.sent) + Messages(due[..i], render)
    {
      MessagesStep(due, render, i);
      if HasRecipient(due[i]) {
        outbox.Send(render(due[i]));
      }
      i := i + 1;
    }
    assert due[..|due|] == due;
  }

  /** `sendReminder`, with `today` the current Jakarta date. */
  method SendReminders(visits: VisitStore, outbox: Outbox, today: Dates.Date)
    modifies outbox
    ensures outbox.sent == old(outbox.sent) + Reminders(visits.saved, today)
  {
    var due := DueVisits(visits.saved, today);
    if due == [] {
      return;
    }
    SendEach(outbox, due, ReminderOf);
  }
}
