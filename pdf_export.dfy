/**
 * The two PDF exports of the journal: the self-care diary and the life
 * timeline. Each turns its records into table rows, draws a banner, hands the
 * table to the layout library, writes a numbered footer on every page and saves
 * the document under a date-stamped name.
 *
 * The layout library decides how many pages the table needs; that decision is
 * an input here (`addedPages`, the pages it adds to the first one). The
 * document keeps, per page, the texts the export writes on it itself; the table
 * the layout library draws is kept as the head and body it was given.
 */
module PdfExport {
  import opened Wrappers
  import opened JsText
  import opened DateFormat

  /** A diary entry as the export receives it; `createdAt` is already local time. */
  datatype Entry = Entry(id: string, texto: string, emocao: string, createdAt: DateTime)

  /** A timeline event as the export receives it. */
  datatype TimelineEvent =
    TimelineEvent(id: string, titulo: string, descricao: string, categoria: string, createdAt: DateTime)

  /** Display label of each stored timeline category. */
  const CategoryLabels: map<string, string> := map[
    "infancia" := "Infância",
    "adolescencia" := "Adolescência",
    "vida_adulta" := "Vida Adulta",
    "relacionamentos" := "Relacionamentos",
    "carreira" := "Carreira",
    "saude" := "Saúde",
    "outros" := "Outros"
  ]

  /**
   * `CATEGORY_LABELS[categoria] || categoria`: the mapped label, or the raw
   * value when the category has no (non-empty) label.
   */
  function CategoryLabel(categoria: string): (shown: string)
    ensures categoria in CategoryLabels ==> shown == CategoryLabels[categoria]
    ensures categoria !in CategoryLabels ==> shown == categoria
    ensures categoria != "" ==> shown != ""
  {
    if categoria in CategoryLabels && CategoryLabels[categoria] != "" then CategoryLabels[categoria]
    else categoria
  }

  const DiaryTitle := "Diário de Autocuidado"
  const TimelineTitle := "Linha do Tempo"

  /** The banner's second line, `Exportado em dd/MM/yyyy 'às' HH:mm`. */
  function ExportedAt(now: DateTime): string {
    "Exportado em " + FormatDate(now, '/') + " às " + FormatTime(now)
  }

  const DiaryHead: seq<string> := ["Data/Hora", "Emoção", "Registro"]
  const TimelineHead: seq<string> := ["Data", "Categoria", "Título", "Descrição"]

  /** One diary row: date and time, capitalised mood, text. */
  function DiaryRow(e: Entry): seq<string> {
    [FormatDateTime(e.createdAt), Capitalize(e.emocao), e.texto]
  }

  /** One timeline row: date, category label, title, description. */
  function TimelineRow(ev: TimelineEvent): seq<string> {
    [FormatDate(ev.createdAt, '/'), CategoryLabel(ev.categoria), ev.titulo, ev.descricao]
  }

  /** `records.map(row)`. */
  function Rows<T>(records: seq<T>, row: T -> seq<string>): seq<seq<string>> {
    if records == [] then [] else [row(records[0])] + Rows(records[1..], row)
  }

  function DiaryTable(entries: seq<Entry>): seq<seq<string>> {
    Rows(entries, DiaryRow)
  }

  function TimelineTable(events: seq<TimelineEvent>): seq<seq<string>> {
    Rows(events, TimelineRow)
  }

  /** One row per record, the i-th row built from the i-th record. */
  lemma {:induction false} RowsCorrespond<T>(records: seq<T>, row: T -> seq<string>)
    ensures |Rows(records, row)| == |records|
    ensures forall i :: 0 <= i < |records| ==> Rows(records, row)[i] == row(records[i])
  {
    if records != [] {
      RowsCorrespond(records[1..], row);
    }
  }

  /** Rows keep the order of the records: the table of a concatenation is the concatenation of the tables. */
  lemma {:induction false} RowsAppend<T>(a: seq<T>, b: seq<T>, row: T -> seq<string>)
    ensures Rows(a + b, row) == Rows(a, row) + Rows(b, row)
  {
    if a == [] {
      assert a + b == b;
    } else {
      assert (a + b)[1..] == a[1..] + b;
      RowsAppend(a[1..], b, row);
    }
  }

  /** The date cell of a diary row reads back as the entry's date and time. */
  lemma DiaryDateCell(e: Entry)
    requires InRange(e.createdAt)
    ensures ParseDateTime(DiaryRow(e)[0]) == Some(e.createdAt)
  {
    DateTimeRoundTrip(e.createdAt);
  }

  /** The date cell of a timeline row reads back as the event's day, month and year. */
  lemma TimelineDateCell(ev: TimelineEvent)
    requires InRange(ev.createdAt)
    ensures ParseDate(TimelineRow(ev)[0], '/') == Some((ev.createdAt.day, ev.createdAt.month, ev.createdAt.year))
  {
    DateRoundTrip(ev.createdAt, '/');
  }

  /** The diary body: exactly one row per entry, in the order given, with a cell per heading. */
  lemma DiaryTableMatchesEntries(entries: seq<Entry>)
    ensures |DiaryTable(entries)| == |entries|
    ensures forall i :: 0 <= i < |entries| ==>
      && |DiaryTable(entries)[i]| == |DiaryHead|
      && DiaryTable(entries)[i][1] == Capitalize(entries[i].emocao)
      && DiaryTable(entries)[i][2] == entries[i].texto
  {
    RowsCorrespond(entries, DiaryRow);
  }

  /** Every date cell of the diary body reads back as its entry's creation time. */
  lemma DiaryTableDates(entries: seq<Entry>)
    ensures |DiaryTable(entries)| == |entries|
    ensures forall i :: 0 <= i < |entries| && InRange(entries[i].createdAt) ==>
      |DiaryTable(entries)[i]| == |DiaryHead| && ParseDateTime(DiaryTable(entries)[i][0]) == Some(entries[i].createdAt)
  {
    RowsCorrespond(entries, DiaryRow);
    forall i | 0 <= i < |entries| && InRange(entries[i].createdAt)
      ensures ParseDateTime(DiaryTable(entries)[i][0]) == Some(entries[i].createdAt)
    {
      DiaryDateCell(entries[i]);
    }
  }

  /** The timeline body: exactly one row per event, in the order given, with a cell per heading. */
  lemma TimelineTableMatchesEvents(events: seq<TimelineEvent>)
    ensures |TimelineTable(events)| == |events|
    ensures forall i :: 0 <= i < |events| ==>
      && |TimelineTable(events)[i]| == |TimelineHead|
      && TimelineTable(events)[i][1] == CategoryLabel(events[i].categoria)
      && TimelineTable(events)[i][2] == events[i].titulo
      && TimelineTable(events)[i][3] == events[i].descricao
  {
    RowsCorrespond(events, TimelineRow);
  }

  /** Every date cell of the timeline body reads back as its event's day, month and year. */
  lemma TimelineTableDates(events: seq<TimelineEvent>)
    ensures |TimelineTable(events)| == |events|
    ensures forall i :: 0 <= i < |events| && InRange(events[i].createdAt) ==>
      && |TimelineTable(events)[i]| == |TimelineHead|
      && ParseDate(TimelineTable(events)[i][0], '/')
         == Some((events[i].createdAt.day, events[i].createdAt.month, events[i].createdAt.year))
  {
    RowsCorrespond(events, TimelineRow);
    forall i | 0 <= i < |events| && InRange(events[i].createdAt)
      ensures ParseDate(TimelineTable(events)[i][0], '/')
        == Some((events[i].createdAt.day, events[i].createdAt.month, events[i].createdAt.year))
    {
      TimelineDateCell(events[i]);
    }
  }

  const FooterPrefix := "Documento confidencial - Para uso profissional | Página "

  /** The footer of page `page` in a document of `pageCount` pages. */
  function FooterText(page: nat, pageCount: nat): string {
    FooterPrefix + (Digits(page) + " de " + Digits(pageCount))
  }

  lemma SeparatorAt(a: string, x: string)
    ensures (a + " de " + x)[|a|] == ' '
  {
  }

  lemma PrefixAt(a: string, x: string, k: int)
    ensures 0 <= k < |a| ==> (a + " de " + x)[k] == a[k]
  {
  }

  /** Two digit strings followed by " de " can only be split one way. */
  lemma SplitAtDe(a: string, x: string, b: string, y: string)
    requires AllDigits(a) && AllDigits(b)
    requires a + " de " + x == b + " de " + y
    ensures a == b && x == y
  {
    if |a| < |b| {
      SeparatorAt(a, x);
      PrefixAt(b, y, |a|);
      assert false;
    } else if |b| < |a| {
      SeparatorAt(b, y);
      PrefixAt(a, x, |b|);
      assert false;
    }
    var s := a + " de " + x;
    assert a == s[..|a|] && b == s[..|b|];
    assert x == s[|a| + 4..] && y == (b + " de " + y)[|b| + 4..];
  }

  /** A footer names its page and the page count unambiguously. */
  lemma FooterTextInjective(i: nat, n: nat, j: nat, m: nat)
    requires FooterText(i, n) == FooterText(j, m)
    ensures i == j && n == m
  {
    var s, t := Digits(i) + " de " + Digits(n), Digits(j) + " de " + Digits(m);
    assert s == FooterText(i, n)[|FooterPrefix|..];
    assert t == FooterText(j, m)[|FooterPrefix|..];
    SplitAtDe(Digits(i), Digits(n), Digits(j), Digits(m));
  }

  const DiaryBase := "diario-autocuidado"
  const TimelineBase := "linha-do-tempo"

  /** `<base>-dd-MM-yyyy.pdf`. */
  function FileName(base: string, today: DateTime): string {
    base + "-" + FormatDate(today, '-') + ".pdf"
  }

  /** `base-<mid><tail>` with a ten-character middle part, cut back into its pieces. */
  lemma Framed(base: string, mid: string, tail: string)
    requires |mid| == 10
    ensures var f := base + "-" + mid + tail;
      && |f| == |base| + 11 + |tail|
      && f[..|base| + 1] == base + "-"
      && f[|base| + 1..|base| + 11] == mid
      && f[|base| + 11..] == tail
  {
  }

  /** A file name is the base, a dash, ten characters and `.pdf`. */
  lemma FileNameShape(base: string, today: DateTime)
    requires InRange(today)
    ensures |FileName(base, today)| == |base| + 15
    ensures FileName(base, today)[..|base| + 1] == base + "-"
    ensures FileName(base, today)[|base| + 11..] == ".pdf"
  {
    DateRoundTrip(today, '-');
    Framed(base, FormatDate(today, '-'), ".pdf");
  }

  /** The ten characters after the base read back as the save date. */
  lemma FileNameDate(base: string, today: DateTime)
    requires InRange(today)
    ensures |FileName(base, today)| == |base| + 15
    ensures ParseDate(FileName(base, today)[|base| + 1..|base| + 11], '-') == Some((today.day, today.month, today.year))
  {
    DateRoundTrip(today, '-');
    Framed(base, FormatDate(today, '-'), ".pdf");
  }

  /** `n` pages with nothing written on them. */
  function BlankPages(n: nat): (pages: seq<seq<string>>)
    ensures |pages| == n && forall k :: 0 <= k < n ==> pages[k] == []
  {
    if n == 0 then [] else BlankPages(n - 1) + [[]]
  }

  /** The head and body handed to the layout library. */
  datatype Table = Table(head: seq<string>, body: seq<seq<string>>)

  /**
   * A document under construction: the texts written on each page, the page
   * that receives the next text (1-based, as `setPage` counts), the table and
   * the name it was saved under.
   */
  class PdfDocument {
    var pages: seq<seq<string>>
    var current: nat
    var table: Option<Table>
    var saved: Option<string>

    ghost predicate Valid()
      reads this
    {
      1 <= current <= |pages|
    }

    /** `new jsPDF()`: one blank page. */
    constructor ()
      ensures Valid() && pages == [[]] && current == 1 && table == None && saved == None
    {
      pages, current, table, saved := [[]], 1, None, None;
    }

    /** `setPage(n)`. */
    method SetPage(n: nat)
      requires 1 <= n <= |pages|
      modifies this
      ensures Valid() && current == n
      ensures pages == old(pages) && table == old(table) && saved == old(saved)
    {
      current := n;
    }

    /** `text(s, ...)`: writes `s` on the current page. */
    method Text(s: string)
      requires Valid()
      modifies this
      ensures Valid() && current == old(current) && table == old(table) && saved == old(saved)
      ensures pages == old(pages)[current - 1 := old(pages)[current - 1] + [s]]
    {
      pages := pages[current - 1 := pages[current - 1] + [s]];
    }

    /**
     * `autoTable(doc, {head, body, ...})`: lays the table out from the current
     * page on, adding `addedPages` pages, and leaves the last page current.
     */
    method AutoTable(head: seq<string>, body: seq<seq<string>>, addedPages: nat)
      requires Valid()
      modifies this
      ensures Valid() && pages == old(pages) + BlankPages(addedPages) && current == |pages|
      ensures table == Some(Table(head, body)) && saved == old(saved)
    {
      pages := pages + BlankPages(addedPages);
      current := |pages|;
      table := Some(Table(head, body));
    }

    /** `save(filename)`. */
    method Save(filename: string)
      requires Valid()
      modifies this
      ensures Valid()
      ensures saved == Some(filename)
      ensures pages == old(pages) && current == old(current) && table == old(table)
    {
      saved := Some(filename);
    }
  }

  /** The footer pass: page i of N, for every page i from 1 to N. */
  method WriteFooters(doc: PdfDocument)
    requires doc.Valid()
    modifies doc
    ensures doc.Valid() && |doc.pages| == |old(doc.pages)| && doc.current == |doc.pages|
    ensures forall k :: 0 <= k < |doc.pages| ==> doc.pages[k] == old(doc.pages)[k] + [FooterText(k + 1, |doc.pages|)]
    ensures doc.table == old(doc.table) && doc.saved == old(doc.saved)
  {
    var pageCount := |doc.pages|;
    for i := 1 to pageCount + 1
      invariant doc.Valid() && |doc.pages| == pageCount
      invariant doc.current == if i == 1 then old(doc.current) else i - 1
      invariant forall k :: 0 <= k < i - 1 ==> doc.pages[k] == old(doc.pages)[k] + [FooterText(k + 1, pageCount)]
      invariant forall k :: i - 1 <= k < pageCount ==> doc.pages[k] == old(doc.pages)[k]
      invariant doc.table == old(doc.table) && doc.saved == old(doc.saved)
    {
      doc.SetPage(i);
      doc.Text(FooterText(i, pageCount));
    }
  }

  /**
   * The steps both exports take, in order: a new document, the banner's title
   * and "exported at" line on page 1, the table, the footer pass, the save.
   */
  method Render(title: string, exported: string, head: seq<string>, body: seq<seq<string>>,
                addedPages: nat, filename: string)
    returns (doc: PdfDocument)
    ensures fresh(doc) && doc.Valid()
    ensures doc.table == Some(Table(head, body))
    ensures |doc.pages| == 1 + addedPages
    ensures doc.pages[0] == [title, exported, FooterText(1, |doc.pages|)]
    ensures forall k :: 1 <= k < |doc.pages| ==> doc.pages[k] == [FooterText(k + 1, |doc.pages|)]
    ensures doc.current == |doc.pages|
    ensures doc.saved == Some(filename)
  {
    doc := new PdfDocument();
    doc.Text(title);
    doc.Text(exported);
    doc.AutoTable(head, body, addedPages);
    ghost var laidOut := doc.pages;
    assert laidOut[0] == [title, exported];
    WriteFooters(doc);
    ghost var n := |doc.pages|;
    assert doc.pages[0] == [title, exported] + [FooterText(1, n)];
    assert forall k :: 1 <= k < n ==> doc.pages[k] == laidOut[k] + [FooterText(k + 1, n)];
    doc.Save(filename);
  }

  /**
   * `exportDiaryToPDF(entries)`. `bannerClock` and `saveClock` are the two
   * readings of the clock (banner line and file name).
   */
  method ExportDiary(entries: seq<Entry>, addedPages: nat, bannerClock: DateTime, saveClock: DateTime)
    returns (doc: PdfDocument)
    ensures fresh(doc) && doc.Valid()
    ensures doc.table == Some(Table(DiaryHead, DiaryTable(entries)))
    ensures |doc.pages| == 1 + addedPages
    ensures doc.pages[0] == [DiaryTitle, ExportedAt(bannerClock), FooterText(1, |doc.pages|)]
    ensures forall k :: 1 <= k < |doc.pages| ==> doc.pages[k] == [FooterText(k + 1, |doc.pages|)]
    ensures doc.current == |doc.pages|
    ensures doc.saved == Some(FileName(DiaryBase, saveClock))
  {
    doc := Render(DiaryTitle, ExportedAt(bannerClock), DiaryHead, DiaryTable(entries),
                  addedPages, FileName(DiaryBase, saveClock));
  }

  /** `exportTimelineToPDF(events)`, with the same two clock readings. */
  method ExportTimeline(events: seq<TimelineEvent>, addedPages: nat, bannerClock: DateTime, saveClock: DateTime)
    returns (doc: PdfDocument)
    ensures fresh(doc) && doc.Valid()
    ensures doc.table == Some(Table(TimelineHead, TimelineTable(events)))
    ensures |doc.pages| == 1 + addedPages
    ensures doc.pages[0] == [TimelineTitle, ExportedAt(bannerClock), FooterText(1, |doc.pages|)]
    ensures forall k :: 1 <= k < |doc.pages| ==> doc.pages[k] == [FooterText(k + 1, |doc.pages|)]
    ensures doc.current == |doc.pages|
    ensures doc.saved == Some(FileName(TimelineBase, saveClock))
  {
    doc := Render(TimelineTitle, ExportedAt(bannerClock), TimelineHead, TimelineTable(events),
                  addedPages, FileName(TimelineBase, saveClock));
  }
}
