/**
 * The entities the engine works on: the visit being filled in, the
 * per-user session holding it, the bill it is seeded from, the registered
 * user, the incoming webhook message and the outgoing WhatsApp message.
 * Java references that may be null are `Option`s.
 */
module Domain {
  import opened Wrappers
  import opened Dates

  datatype VisitType = Tagihan | Monitoring | Canvasing | Survey | Informational

  /** The conversation states; `AddInterested` has a handler but no prompt. */
  datatype State =
    | Register | AddSpk | AddCaption | AddReminder | AddLimit | AddAppointment
    | AddUsaha | AddName | AddAddress | Completed | AddInterested

  /** A visit record; `userId` is the WhatsApp id of the agent who files it. */
  datatype Visit = Visit(
    id: Option<string>,
    userId: string,
    visitType: Option<VisitType>,
    visitDate: Option<Instant>,
    spk: Option<string>,
    name: Option<string>,
    address: Option<string>,
    debitTray: Option<int>,
    interest: Option<int>,
    principal: Option<int>,
    plafond: Option<int>,
    penalty: Option<int>,
    note: Option<string>,
    imageUrl: Option<string>,
    appointment: Option<int>,
    reminderDate: Option<Date>,
    usaha: Option<string>,
    interested: Option<string>)

  /** A session: where the conversation stands and the visit collected so far. */
  datatype StateData = StateData(currentState: State, visit: Visit)

  /** One row of the bill export (`Bills`), numeric columns already parsed. */
  datatype Bills = Bills(
    customerId: string, wilayah: string, branch: string, noSpk: string,
    officeLocation: string, product: string, name: string, address: string,
    payDown: string, realization: string, dueDate: string, collectStatus: string,
    dayLate: string,
    plafond: int, debitTray: int, interest: int, principal: int, installment: int,
    lastInterest: int, lastPrincipal: int, lastInstallment: int, fullPayment: int,
    minInterest: int, minPrincipal: int, penaltyInterest: int, penaltyPrincipal: int,
    accountOfficer: string, kios: string, titipan: int, fixedInterest: int)

  /** The only role the engine assigns. */
  datatype Role = Member

  datatype User = User(userId: string, accountOfficer: string, role: Role)

  datatype ImagePayload = ImagePayload(caption: Option<string>)

  /** The fields of an incoming message the engine reads. */
  datatype WebhookData = WebhookData(
    chatId: string, from: string, id: string,
    body: Option<string>, image: Option<ImagePayload>)

  /** What an outgoing message carries: text, or a PDF report over some visits. */
  datatype Content =
    | Text(text: string)
    | Report(kind: string, accountOfficer: string, identifier: Option<string>, visits: seq<Visit>)
      /** A text made of `prefix` and the message of an exception the model does not compute. */
    | ErrorText(prefix: string)
      /**
       * One of `StateChangedListener`'s prompts, by what its wording depends
       * on: the state asked for, the visit's type and the name it shows.
       * `Prompts.PromptText` renders it.
       */
    | Prompt(state: State, visitType: Option<VisitType>, name: Option<string>)
      /** `CompletedVisitState`'s success summary of a saved visit; `Summaries.SuccessText` renders it. */
    | Summary(visit: Visit)

  /** One message handed to the WhatsApp gateway: recipient, content and the message it replies to. */
  datatype Outbound = Outbound(phone: string, content: Content, replyTo: Option<string>)

  function TextTo(phone: string, text: string): Outbound { Outbound(phone, Text(text), None) }

  function ReplyTo(phone: string, text: string, messageId: string): Outbound
  {
    Outbound(phone, Text(text), Some(messageId))
  }
}
