/**
 * `UpTagihan`, the `up_tagihan <URL>` command: a body of exactly two
 * space-separated parts replaces the bill collection with the export at
 * the URL and reports the outcome; anything else gets the format hint.
 */
module UpTagihanCommand {
  import opened Wrappers
  import opened JavaText
  import opened Domain
  import opened Stores
  import opened DownloadService
  import opened BillsImport

  const UpTagihanTrigger := "up_tagihan"
  const ImportedLead := "✅ Berhasil mengupdate data tagihan untuk: "
  /** The failure reply is this text followed by the error's message, which the model does not compute. */
  const ImportFailedLead := "❌ Gagal mengupdate data tagihan. Coba lagi nanti. "
  const FormatHint := "⚠️ Format pesan salah. Gunakan: up_tagihan [URL]"

  /**
   * `split(" ")` of the body: exactly two parts give the URL, the second.
   * Java drops trailing empty fields, so trailing spaces are harmless,
   * while a doubled space makes an empty middle field.
   */
  function ImportUrl(body: string): (r: Option<string>)
    ensures r.Some? <==> |Split(body, ' ')| == 2
    ensures r.Some? ==> r.value == Split(body, ' ')[1]
  {
    var parts := Split(body, ' ');
    if |parts| == 2 then Some(parts[1]) else None
  }

  /** A URL taken from the body is never empty and holds no space. */
  lemma ImportUrlShape(body: string)
    requires ImportUrl(body).Some?
    ensures ImportUrl(body).value != [] && ' ' !in ImportUrl(body).value
    ensures ' ' in body
  {
    var fs := Fields(body, ' ');
    assert Split(body, ' ') == DropTrailingEmpty(fs);
    assert Split(body, ' ')[1] == fs[1];
  }

  /** A field without the separator, then the separator, starts the fields. */
  lemma FieldsAfter(p: string, rest: string, sep: char)
    requires sep !in p
    ensures Fields(p + [sep] + rest, sep) == [p] + Fields(rest, sep)
  {
    var s := p + [sep] + rest;
    assert s[|p|] == sep;
    var i := IndexOf(s, sep);
    assert s[..|p|] == p;
    assert i == |p|;
    assert s[..i] == p && s[i + 1..] == rest;
  }

  /** `up_tagihan <url>` names the URL. */
  lemma TwoPartsGiveUrl(cmd: string, url: string)
    requires ' ' !in cmd && ' ' !in url && url != []
    ensures ImportUrl(cmd + " " + url) == Some(url)
  {
    var b := cmd + " " + url;
    assert b == cmd + [' '] + url;
    FieldsAfter(cmd, url, ' ');
    assert Fields(b, ' ') == [cmd, url];
    assert b[|cmd|] == ' ';
    assert DropTrailingEmpty([cmd, url]) == [cmd, url];
  }

  /** The fields of `cmd url ` end in an empty one. */
  lemma TrailingFields(cmd: string, url: string)
    requires ' ' !in cmd && ' ' !in url
    ensures Fields(cmd + " " + url + " ", ' ') == [cmd, url, []]
  {
    var tail: string := url + [' '];
    assert cmd + " " + url + " " == cmd + [' '] + tail;
    FieldsAfter(url, [], ' ');
    assert url + [' '] + [] == tail;
    FieldsAfter(cmd, tail, ' ');
  }

  /** Trailing spaces are harmless: `split` drops the empty fields they make. */
  lemma TrailingSpaceIgnored(cmd: string, url: string)
    requires ' ' !in cmd && ' ' !in url && url != []
    ensures ImportUrl(cmd + " " + url + " ") == Some(url)
  {
    var b := cmd + " " + url + " ";
    TrailingFields(cmd, url);
    var fs: seq<string> := [cmd, url, []];
    assert b[|cmd|] == ' ';
    assert Split(b, ' ') == DropTrailingEmpty(fs);
    assert fs[..2] == [cmd, url];
    assert DropTrailingEmpty(fs) == DropTrailingEmpty([cmd, url]) == [cmd, url];
  }

  /** A doubled space makes an empty middle part, so the command is refused. */
  lemma DoubledSpaceRefused(cmd: string, url: string)
    requires ' ' !in cmd && ' ' !in url && url != []
    ensures ImportUrl(cmd + "  " + url).None?
  {
    FieldsAfter([], url, ' ');
    FieldsAfter(cmd, [' '] + url, ' ');
    assert cmd + "  " + url == cmd + [' '] + ([' '] + url);
    assert [' '] + url == [] + [' '] + url;
    assert (cmd + [' '] + ([' '] + url))[|cmd|] == ' ';
    assert Fields(cmd + "  " + url, ' ') == [cmd, [], url];
  }

  /** The reply to a command whose import ran: success names the URL, failure carries the error. */
  function ImportReply(msg: WebhookData, url: string, succeeded: bool): (m: Outbound)
    ensures m.phone == msg.chatId && m.replyTo == Some(msg.id)
    ensures succeeded ==> m.content == Text(ImportedLead + url)
    ensures !succeeded ==> m.content == ErrorText(ImportFailedLead)
  {
    if succeeded then ReplyTo(msg.chatId, ImportedLead + url, msg.id)
    else Outbound(msg.chatId, ErrorText(ImportFailedLead), Some(msg.id))
  }

  /**
   * `handle`. `escaped` is true where `handle` throws: `getBody().split` on
   * a missing body, or the import being assembled for a URL `URI.create`
   * rejects; nothing then changes. `fetch` stands for the download, and
   * `finished` counts the batches saved before a failing stream stops the import.
   */
  method HandleUpTagihan(outbox: Outbox, service: BillsService, msg: WebhookData,
                         fetch: string -> Fetched, finished: nat) returns (escaped: bool)
    modifies outbox, service.store
    ensures escaped <==> msg.body.None? || (ImportUrl(msg.body.value).Some? && fetch(ImportUrl(msg.body.value).value).BadUri?)
    ensures escaped || ImportUrl(msg.body.value).None? ==> service.store.bills == old(service.store.bills)
    ensures escaped ==> outbox.sent == old(outbox.sent)
    ensures !escaped && ImportUrl(msg.body.value).None? ==> outbox.sent == old(outbox.sent) + [ReplyTo(msg.chatId, FormatHint, msg.id)]
    ensures !escaped && ImportUrl(msg.body.value).Some? ==>
              var url := ImportUrl(msg.body.value).value;
              var f := fetch(url);
              var store := service.store;
              var imported := Imported(SavedBatches(ParseCsv(f.lines), f.complete, finished), store.batchFails, store.rowFails);
              outbox.sent == old(outbox.sent) + [ImportReply(msg, url, f.complete)]
              && store.bills == Cleared(old(store.bills), store.deleteFails) + imported
  {
    if msg.body.None? {
      return true;
    }
    var url := ImportUrl(msg.body.value);
    if url.None? {
      outbox.Send(ReplyTo(msg.chatId, FormatHint, msg.id));
      return false;
    }
    var r := service.SaveAndDeleteBills(url.value, fetch, finished);
    if r.Thrown? {
      return true;
    }
    outbox.Send(ImportReply(msg, url.value, r.Done?));
    escaped := false;
  }
}
