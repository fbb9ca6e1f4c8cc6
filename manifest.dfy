/** The manifest builder (extract_metadata_to_manifest.py): for each PDF it asks
    a language model, sheet by sheet, for the metadata of a spreadsheet template,
    normalises each reply into rows over the sheet's fields, fits the column
    widths and keeps at least one sheet visible. The model is a function of the
    conversation so far; `json.loads` is a function returning `None` on a decode
    error; spreadsheet files become values and a `Workbook` object. */
module Manifest {
  import opened Wrappers
  import opened Text
  import opened Json

  /** The sheets asked for, in this order. */
  const SheetsToProcess: seq<string> :=
    ["study", "person", "sample", "dissociation", "cell_suspension", "lib_prep", "sequencing"]

  const NotProvided := "Not Provided"
  const OutputDir := "completed_manifests"

  // ---------------------------------------------------------------------------
  //  The conversation
  // ---------------------------------------------------------------------------

  datatype Role = System | User | Assistant

  datatype Message = Message(role: Role, content: string)

  /** `str(fields)` for a list of strings. */
  function ListRepr(items: seq<string>): string
  {
    "[" + ItemsRepr(items) + "]"
  }

  /** The items of a list's `str()`, separated by ", ". */
  function ItemsRepr(items: seq<string>): string
    decreases |items|
  {
    if items == [] then ""
    else if |items| == 1 then StrRepr(items[0])
    else StrRepr(items[0]) + ", " + ItemsRepr(items[1..])
  }

  /** The user prompt that asks for one sheet. */
  function FieldPrompt(sheet: string, fields: seq<string>): string
  {
    "Extract the following metadata fields for the '" + sheet + "' worksheet. " +
    "Return data as JSON. Fields:\n" + ListRepr(fields)
  }

  function PaperPrompt(pdfText: string): string
  {
    "Here is the text of the paper:\n\n" + pdfText
  }

  /** The chat history sent with every request; it only grows. */
  class Conversation {
    var messages: seq<Message>

    /** `get_base_messages(pdf_text)`, with the fixed system prompt as a parameter. */
    constructor (systemPrompt: string, pdfText: string)
      ensures messages == [Message(System, systemPrompt), Message(User, PaperPrompt(pdfText))]
    {
      messages := [Message(System, systemPrompt), Message(User, PaperPrompt(pdfText))];
    }

    /** `query_gpt_for_sheet`: append the sheet's prompt, send the whole history,
        append the stripped reply and return it. */
    method QueryForSheet(sheet: string, fields: seq<string>, llm: seq<Message> -> string)
      returns (reply: string)
      modifies this
      ensures messages == old(messages) + [Message(User, FieldPrompt(sheet, fields))] + [Message(Assistant, reply)]
      ensures reply == Strip(llm(old(messages) + [Message(User, FieldPrompt(sheet, fields))]))
    {
      messages := messages + [Message(User, FieldPrompt(sheet, fields))];
      reply := Strip(llm(messages));
      messages := messages + [Message(Assistant, reply)];
    }
  }

  // ---------------------------------------------------------------------------
  //  From a reply to rows
  // ---------------------------------------------------------------------------

  /** A generated sheet: its column names and its rows, each a decoded object. */
  datatype Frame = Frame(columns: seq<string>, rows: seq<Json>)

  /** All members of the object rows, row after row. */
  function RowMembers(rows: seq<Json>): seq<(string, Json)>
    decreases |rows|
  {
    if rows == [] then []
    else
      var last := rows[|rows| - 1];
      RowMembers(rows[..|rows| - 1]) + (if last.JObj? then last.members else [])
  }

  /** `pd.DataFrame(records)`: the rows as given; the columns are the keys in
      order of first appearance across the rows. */
  function FromRecords(records: seq<Json>): Frame
  {
    Frame(Keys(RowMembers(records)), records)
  }

  /** The value of `column` in a row; `None` for a missing key (a NaN cell). */
  function CellValue(row: Json, column: string): Option<Json>
  {
    if row.JObj? then Lookup(row.members, column) else None
  }

  /** `members.get(col, "Not Provided")`. */
  function FieldValue(members: seq<(string, Json)>, column: string): Json
  {
    match Lookup(members, column)
    case Some(v) => v
    case None => JStr(NotProvided)
  }

  /** `{col: members.get(col, "Not Provided") for col in fields}`. */
  function ProjectRow(fields: seq<string>, members: seq<(string, Json)>): Json
  {
    JObj(seq(|fields|, i requires 0 <= i < |fields| => (fields[i], FieldValue(members, fields[i]))))
  }

  /** Keys that are pairwise distinct come out of `Keys` as they are. */
  lemma {:induction false} KeysOfDistinct(members: seq<(string, Json)>, names: seq<string>)
    requires |names| == |members| && NoDuplicates(names)
    requires forall i :: 0 <= i < |members| ==> members[i].0 == names[i]
    ensures Keys(members) == names
    decreases |members|
  {
    if members != [] {
      var last := |members| - 1;
      KeysOfDistinct(members[..last], names[..last]);
      assert names[last] !in names[..last];
      assert names == names[..last] + [names[last]];
    }
  }

  /** A frame built from one projected row has exactly the fields as its columns. */
  lemma ProjectRowColumns(fields: seq<string>, members: seq<(string, Json)>)
    requires NoDuplicates(fields)
    ensures FromRecords([ProjectRow(fields, members)]).columns == fields
  {
    var row := ProjectRow(fields, members);
    assert [row][..0] == [];
    assert RowMembers([row]) == row.members;
    KeysOfDistinct(row.members, fields);
  }

  /** A projected row holds the reply's value where it has one and "Not Provided"
      elsewhere; keys outside the fields are dropped. */
  lemma ProjectRowCells(fields: seq<string>, members: seq<(string, Json)>)
    ensures forall c :: c in fields ==> CellValue(ProjectRow(fields, members), c) == Some(FieldValue(members, c))
    ensures forall c :: c !in fields ==> CellValue(ProjectRow(fields, members), c) == None
  {
    var row := ProjectRow(fields, members);
    forall c | c in fields
      ensures CellValue(row, c) == Some(FieldValue(members, c))
    {
      var i :| 0 <= i < |fields| && fields[i] == c;
      assert row.members[i].0 == c;
      var found := Lookup(row.members, c);
      var j :| 0 <= j < |row.members| && row.members[j] == (c, found.value);
      assert fields[j] == c;
    }
  }

  /** The rows of one sheet: an unparsable reply gives one "Not Provided" row, a
      list is taken as the rows verbatim, an object is projected onto the fields.
      `None` stands for a reply that decodes to anything else, on which the script
      crashes. */
  function SheetFrame(decoded: Option<Json>, fields: seq<string>): Option<Frame>
  {
    match decoded
    case None => Some(FromRecords([ProjectRow(fields, [])]))
    case Some(JArr(items)) => Some(FromRecords(items))
    case Some(JObj(members)) => Some(FromRecords([ProjectRow(fields, members)]))
    case Some(_) => None
  }

  /** What each kind of reply becomes: the sheet's fields as columns and a single
      row for an unparsable reply or an object, the list's items as rows otherwise,
      and a crash for anything else. */
  lemma SheetFrameShape(decoded: Option<Json>, fields: seq<string>)
    requires NoDuplicates(fields)
    ensures SheetFrame(decoded, fields).None? <==> decoded.Some? && !decoded.value.JArr? && !decoded.value.JObj?
    ensures decoded.None? ==>
              var f := SheetFrame(decoded, fields).value;
              f.columns == fields && |f.rows| == 1 &&
              forall c :: c in fields ==> CellValue(f.rows[0], c) == Some(JStr(NotProvided))
    ensures decoded.Some? && decoded.value.JObj? ==>
              var f := SheetFrame(decoded, fields).value;
              f.columns == fields && |f.rows| == 1 &&
              (forall c :: c in fields ==> CellValue(f.rows[0], c) == Some(FieldValue(decoded.value.members, c))) &&
              (forall c :: c !in fields ==> CellValue(f.rows[0], c) == None)
    ensures decoded.Some? && decoded.value.JArr? ==>
              var f := SheetFrame(decoded, fields).value;
              f.rows == decoded.value.items && f.columns == Keys(RowMembers(decoded.value.items))
  {
    match decoded
    case None =>
      ProjectRowColumns(fields, []);
      ProjectRowCells(fields, []);
    case Some(JObj(members)) =>
      ProjectRowColumns(fields, members);
      ProjectRowCells(fields, members);
    case Some(_) =>
  }

  // ---------------------------------------------------------------------------
  //  Column widths
  // ---------------------------------------------------------------------------

  /** A cell as `astype(str)` renders it; a missing value is NaN, rendered "nan". */
  function CellText(row: Json, column: string): string
  {
    match CellValue(row, column)
    case Some(v) => Str(v)
    case None => "nan"
  }

  /** `df[column].astype(str).map(len)`. */
  function CellLengths(rows: seq<Json>, column: string): (lengths: seq<nat>)
    ensures |lengths| == |rows|
  {
    seq(|rows|, k requires 0 <= k < |rows| => |CellText(rows[k], column)|)
  }

  /** `.max()` of a series of lengths; 0 for an empty one. */
  function Longest(lengths: seq<nat>): nat
    decreases |lengths|
  {
    if lengths == [] then 0
    else
      var rest := Longest(lengths[1..]);
      if lengths[0] >= rest then lengths[0] else rest
  }

  /** `Longest` is the maximum of the lengths. */
  lemma {:induction false} LongestIsMax(lengths: seq<nat>)
    ensures forall k :: 0 <= k < |lengths| ==> lengths[k] <= Longest(lengths)
    ensures lengths != [] ==> exists k :: 0 <= k < |lengths| && lengths[k] == Longest(lengths)
    ensures lengths == [] ==> Longest(lengths) == 0
    decreases |lengths|
  {
    if lengths != [] {
      LongestIsMax(lengths[1..]);
      assert forall k :: 1 <= k < |lengths| ==> lengths[k] == lengths[1..][k - 1];
    }
  }

  /** The width given to column `i` (0-based). */
  function ColumnWidth(f: Frame, i: nat): nat
    requires i < |f.columns|
  {
    var longest := Longest(CellLengths(f.rows, f.columns[i]));
    (if longest >= |f.columns[i]| then longest else |f.columns[i]|) + 2
  }

  /** The width is two more than the longer of the header and the longest cell. */
  lemma ColumnWidthFits(f: Frame, i: nat)
    requires i < |f.columns|
    ensures ColumnWidth(f, i) >= |f.columns[i]| + 2
    ensures forall r :: r in f.rows ==> ColumnWidth(f, i) >= |CellText(r, f.columns[i])| + 2
    ensures ColumnWidth(f, i) == |f.columns[i]| + 2 ||
            exists r :: r in f.rows && ColumnWidth(f, i) == |CellText(r, f.columns[i])| + 2
  {
    var lengths := CellLengths(f.rows, f.columns[i]);
    LongestIsMax(lengths);
    forall r | r in f.rows
      ensures ColumnWidth(f, i) >= |CellText(r, f.columns[i])| + 2
    {
      var k :| 0 <= k < |f.rows| && f.rows[k] == r;
      assert lengths[k] == |CellText(r, f.columns[i])|;
    }
    if Longest(lengths) >= |f.columns[i]| && f.rows != [] {
      var k :| 0 <= k < |lengths| && lengths[k] == Longest(lengths);
      assert f.rows[k] in f.rows;
    }
  }

  /** The width of every column of a frame, in column order. */
  function ColumnWidths(f: Frame): (ws: seq<nat>)
    ensures |ws| == |f.columns|
  {
    seq(|f.columns|, i requires 0 <= i < |f.columns| => ColumnWidth(f, i))
  }

  /** A sheet's widths after the first `n` widths of `ws` were set; keys are the
      1-based column numbers that `get_column_letter` turns into letters. */
  function FittedWidths(widths: map<nat, nat>, ws: seq<nat>, n: nat): map<nat, nat>
    requires n <= |ws|
    decreases n
  {
    if n == 0 then widths else FittedWidths(widths, ws, n - 1)[n := ws[n - 1]]
  }

  /** Column `k` gets width `ws[k - 1]`; other entries stay as they were. */
  lemma {:induction false} FittedWidthsAt(widths: map<nat, nat>, ws: seq<nat>, n: nat, k: nat)
    requires n <= |ws|
    ensures 1 <= k <= n ==> k in FittedWidths(widths, ws, n) && FittedWidths(widths, ws, n)[k] == ws[k - 1]
    ensures !(1 <= k <= n) ==> (k in FittedWidths(widths, ws, n) <==> k in widths)
    ensures !(1 <= k <= n) && k in widths ==> FittedWidths(widths, ws, n)[k] == widths[k]
    decreases n
  {
    if n > 0 {
      FittedWidthsAt(widths, ws, n - 1, k);
    }
  }

  /** `ws.column_dimensions[get_column_letter(i)].width = ...` for each column `i`
      from 1, with `ws[i - 1]` as the width: column `k` ends with the `k`-th width
      and every other entry is kept. */
  method SetWidths(widths: map<nat, nat>, ws: seq<nat>) returns (fitted: map<nat, nat>)
    ensures fitted == FittedWidths(widths, ws, |ws|)
    ensures forall k: nat :: 1 <= k <= |ws| ==> k in fitted && fitted[k] == ws[k - 1]
    ensures forall k: nat :: !(1 <= k <= |ws|) ==> (k in fitted <==> k in widths)
    ensures forall k: nat :: !(1 <= k <= |ws|) && k in widths ==> fitted[k] == widths[k]
  {
    fitted := widths;
    var i: nat := 1;
    while i <= |ws|
      invariant 1 <= i <= |ws| + 1
      invariant fitted == FittedWidths(widths, ws, i - 1)
    {
      fitted := fitted[i := ws[i - 1]];
      i := i + 1;
    }
    forall k: nat
      ensures 1 <= k <= |ws| ==> k in fitted && fitted[k] == ws[k - 1]
      ensures !(1 <= k <= |ws|) ==> (k in fitted <==> k in widths)
      ensures !(1 <= k <= |ws|) && k in widths ==> fitted[k] == widths[k]
    {
      FittedWidthsAt(widths, ws, |ws|, k);
    }
  }

  // ---------------------------------------------------------------------------
  //  The workbook
  // ---------------------------------------------------------------------------

  datatype SheetState = Visible | Hidden | VeryHidden

  /** The generated frame of a sheet, if there is one. */
  function FrameOf(generated: seq<(string, Frame)>, name: string): (f: Option<Frame>)
    ensures f.None? <==> forall j :: 0 <= j < |generated| ==> generated[j].0 != name
    decreases |generated|
  {
    if generated == [] then None
    else if generated[|generated| - 1].0 == name then Some(generated[|generated| - 1].1)
    else FrameOf(generated[..|generated| - 1], name)
  }

  /** Appending a frame makes it the one found under its name. */
  lemma FrameOfSnoc(prefix: seq<(string, Frame)>, name: string, f: Frame, x: string)
    ensures FrameOf(prefix + [(name, f)], x) == if x == name then Some(f) else FrameOf(prefix, x)
  {
    assert (prefix + [(name, f)])[..|prefix|] == prefix;
  }

  /** The sheet names of the generated frames, in order. */
  function Names(generated: seq<(string, Frame)>): seq<string>
    decreases |generated|
  {
    if generated == [] then []
    else Names(generated[..|generated| - 1]) + [generated[|generated| - 1].0]
  }

  lemma {:induction false} NamesAt(generated: seq<(string, Frame)>)
    ensures |Names(generated)| == |generated|
    ensures forall j :: 0 <= j < |generated| ==> Names(generated)[j] == generated[j].0
    decreases |generated|
  {
    if generated != [] {
      NamesAt(generated[..|generated| - 1]);
    }
  }

  /** The index of a name in a list; `None` if absent. */
  function IndexOf(names: seq<string>, name: string): (k: Option<nat>)
    ensures k.Some? ==> k.value < |names| && names[k.value] == name
    ensures k.None? ==> name !in names
    decreases |names|
  {
    if names == [] then None
    else if names[0] == name then Some(0)
    else match IndexOf(names[1..], name) case None => None case Some(k) => Some(k + 1)
  }

  /** A workbook as openpyxl loads it: distinct sheet names in order, each sheet's
      state and the column widths set on it. */
  class Workbook {
    var names: seq<string>
    var states: seq<SheetState>
    var widths: seq<map<nat, nat>>

    ghost predicate Valid()
      reads this
    {
      |states| == |names| && |widths| == |names| && NoDuplicates(names)
    }

    constructor (names: seq<string>, states: seq<SheetState>)
      requires |states| == |names| && NoDuplicates(names)
      ensures Valid() && this.names == names && this.states == states
      ensures forall i :: 0 <= i < |names| ==> widths[i] == map[]
    {
      this.names := names;
      this.states := states;
      widths := seq(|names|, _ => map[]);
    }

    /** The loop `for i, column in enumerate(df.columns, start=1)` on sheet `idx`. */
    method FitColumns(idx: nat, f: Frame)
      requires Valid() && idx < |names|
      modifies this
      ensures Valid() && names == old(names) && states == old(states)
      ensures widths == old(widths)[idx := FittedWidths(old(widths)[idx], ColumnWidths(f), |f.columns|)]
    {
      var fitted := SetWidths(widths[idx], ColumnWidths(f));
      widths := widths[idx := fitted];
    }

    /** One iteration of the loop over `generated_dfs`: the sheet called `name`, if
        the workbook holds it, is set visible and gets its columns fitted. */
    method ShowSheet(name: string, f: Frame)
      requires Valid()
      modifies this
      ensures Valid() && names == old(names)
      ensures forall i :: 0 <= i < |names| ==>
                states[i] == (if names[i] == name then Visible else old(states)[i])
      ensures forall i :: 0 <= i < |names| ==>
                widths[i] == (if names[i] == name then FittedWidths(old(widths)[i], ColumnWidths(f), |f.columns|)
                              else old(widths)[i])
    {
      var idx := IndexOf(names, name);
      if idx.Some? {
        states := states[idx.value := Visible];
        FitColumns(idx.value, f);
      }
    }

    /** The loop over `generated_dfs`: a generated sheet that the workbook holds is
        set visible and gets its columns fitted; one it lacks is skipped; every
        other sheet is left as it was. */
    method ShowGenerated(generated: seq<(string, Frame)>)
      requires Valid() && NoDuplicates(Names(generated))
      modifies this
      ensures Valid() && names == old(names)
      ensures forall i :: 0 <= i < |names| ==>
                states[i] == (if FrameOf(generated, names[i]).Some? then Visible else old(states)[i])
      ensures forall i :: 0 <= i < |names| ==>
                widths[i] == match FrameOf(generated, names[i])
                             case Some(f) => FittedWidths(old(widths)[i], ColumnWidths(f), |f.columns|)
                             case None => old(widths)[i]
    {
      NamesAt(generated);
      var k := 0;
      while k < |generated|
        invariant k <= |generated|
        invariant Valid() && names == old(names)
        invariant forall i :: 0 <= i < |names| ==>
                    states[i] == (if FrameOf(generated[..k], names[i]).Some? then Visible else old(states)[i])
        invariant forall i :: 0 <= i < |names| ==>
                    widths[i] == match FrameOf(generated[..k], names[i])
                                 case Some(f) => FittedWidths(old(widths)[i], ColumnWidths(f), |f.columns|)
                                 case None => old(widths)[i]
      {
        var (name, f) := generated[k];
        ghost var prefix := generated[..k];
        assert FrameOf(prefix, name).None? by {
          assert forall j :: 0 <= j < k ==> prefix[j].0 == Names(generated)[j];
        }
        assert generated[..k + 1] == prefix + [(name, f)];
        ShowSheet(name, f);
        forall i | 0 <= i < |names|
          ensures FrameOf(generated[..k + 1], names[i]) ==
                  if names[i] == name then Some(f) else FrameOf(prefix, names[i])
        {
          FrameOfSnoc(prefix, name, f, names[i]);
        }
        k := k + 1;
      }
      assert generated[..k] == generated;
    }

    /** The repair: when no sheet is visible, the first one is made visible. */
    method EnsureVisibleSheet()
      requires Valid() && |names| > 0
      modifies this
      ensures Valid() && names == old(names) && widths == old(widths)
      ensures Visible in states
      ensures Visible in old(states) ==> states == old(states)
      ensures Visible !in old(states) ==> states == old(states)[0 := Visible]
    {
      if Visible !in states {
        states := states[0 := Visible];
        assert states[0] == Visible;
      }
    }
  }

  // ---------------------------------------------------------------------------
  //  One PDF
  // ---------------------------------------------------------------------------

  /** A sheet of the template and the header fields pandas read from it (pandas
      makes repeated header names distinct). */
  datatype TemplateSheet = TemplateSheet(name: string, fields: seq<string>)

  /** The fields of the template sheet called `name`, if the template has one. */
  function FieldsOf(template: seq<TemplateSheet>, name: string): (fields: Option<seq<string>>)
    ensures fields.Some? ==> exists t :: t in template && t.name == name && t.fields == fields.value
    ensures fields.None? ==> forall t :: t in template ==> t.name != name
    decreases |template|
  {
    if template == [] then None
    else if template[0].name == name then Some(template[0].fields)
    else FieldsOf(template[1..], name)
  }

  /** The sheets of `wanted` that the template has, in the order of `wanted`. */
  function PresentSheets(template: seq<TemplateSheet>, wanted: seq<string>): seq<string>
    decreases |wanted|
  {
    if wanted == [] then []
    else
      var last := wanted[|wanted| - 1];
      PresentSheets(template, wanted[..|wanted| - 1]) + (if FieldsOf(template, last).Some? then [last] else [])
  }

  /** Exactly the wanted sheets the template has are kept, each once. */
  lemma {:induction false} PresentSheetsMembers(template: seq<TemplateSheet>, wanted: seq<string>)
    ensures |PresentSheets(template, wanted)| <= |wanted|
    ensures forall s :: s in PresentSheets(template, wanted) <==> s in wanted && FieldsOf(template, s).Some?
    ensures NoDuplicates(wanted) ==> NoDuplicates(PresentSheets(template, wanted))
    decreases |wanted|
  {
    if wanted != [] {
      var init := wanted[..|wanted| - 1];
      PresentSheetsMembers(template, init);
      assert forall s :: s in wanted <==> s in init || s == wanted[|wanted| - 1];
    }
  }

  /** Why the script stops on a PDF. */
  datatype ManifestError =
    | UnsupportedReply(sheet: string)   // the reply decoded to neither a list nor an object
    | NoSheetsProcessed                 // no sheet of the list is in the template

  /** The last two messages are the request for `sheet` and the model's stripped
      answer to the history up to the request, and the answer decodes and
      normalises to `frame`. */
  ghost predicate LastExchange(msgs: seq<Message>, sheet: string, frame: Frame,
                               template: seq<TemplateSheet>, llm: seq<Message> -> string,
                               decode: string -> Option<Json>)
  {
    var fields := FieldsOf(template, sheet);
    |msgs| >= 2 && fields.Some? &&
    msgs[|msgs| - 2] == Message(User, FieldPrompt(sheet, fields.value)) &&
    msgs[|msgs| - 1] == Message(Assistant, Strip(llm(msgs[..|msgs| - 1]))) &&
    SheetFrame(decode(msgs[|msgs| - 1].content), fields.value) == Some(frame)
  }

  /** After the first `start` messages, the history is one exchange per generated
      sheet, in order. */
  ghost predicate Transcript(msgs: seq<Message>, start: nat, generated: seq<(string, Frame)>,
                             template: seq<TemplateSheet>, llm: seq<Message> -> string,
                             decode: string -> Option<Json>)
    decreases |generated|
  {
    if generated == [] then |msgs| == start
    else
      var last := generated[|generated| - 1];
      |msgs| >= 2 && LastExchange(msgs, last.0, last.1, template, llm, decode) &&
      Transcript(msgs[..|msgs| - 2], start, generated[..|generated| - 1], template, llm, decode)
  }

  /** A transcript has two messages per sheet after the first `start`. */
  lemma {:induction false} TranscriptLength(msgs: seq<Message>, start: nat, generated: seq<(string, Frame)>,
                                            template: seq<TemplateSheet>, llm: seq<Message> -> string,
                                            decode: string -> Option<Json>)
    requires Transcript(msgs, start, generated, template, llm, decode)
    ensures |msgs| == start + 2 * |generated|
    decreases |generated|
  {
    if generated != [] {
      TranscriptLength(msgs[..|msgs| - 2], start, generated[..|generated| - 1], template, llm, decode);
    }
  }

  /** A transcript followed by one more exchange is a transcript. */
  lemma TranscriptSnoc(msgs: seq<Message>, start: nat, generated: seq<(string, Frame)>,
                       sheet: string, frame: Frame, template: seq<TemplateSheet>,
                       llm: seq<Message> -> string, decode: string -> Option<Json>)
    requires |msgs| >= 2 && Transcript(msgs[..|msgs| - 2], start, generated, template, llm, decode)
    requires LastExchange(msgs, sheet, frame, template, llm, decode)
    ensures Transcript(msgs, start, generated + [(sheet, frame)], template, llm, decode)
  {
    assert (generated + [(sheet, frame)])[..|generated|] == generated;
  }

  /** The history left by the sheet loop and what it produced: the generated
      frames, or why the script stops. */
  datatype Extraction = Extraction(history: seq<Message>, result: Result<seq<(string, Frame)>, ManifestError>)

  /** One exchange for a sheet the template has: the prompt is appended, the model
      answers the whole history, the stripped answer is appended and normalised. */
  function Exchange(sofar: seq<Message>, generated: seq<(string, Frame)>, sheet: string,
                    fields: seq<string>, llm: seq<Message> -> string,
                    decode: string -> Option<Json>): Extraction
  {
    var request := sofar + [Message(User, FieldPrompt(sheet, fields))];
    var reply := Strip(llm(request));
    var history := request + [Message(Assistant, reply)];
    match SheetFrame(decode(reply), fields)
    case None => Extraction(history, Err(UnsupportedReply(sheet)))
    case Some(f) => Extraction(history, Ok(generated + [(sheet, f)]))
  }

  /** The loop over `sheets` from a given history, sheet by sheet; it stops at the
      first reply it cannot use. */
  function Extract(history: seq<Message>, template: seq<TemplateSheet>, sheets: seq<string>,
                   llm: seq<Message> -> string, decode: string -> Option<Json>): Extraction
    decreases |sheets|
  {
    if sheets == [] then Extraction(history, Ok([]))
    else
      var sofar := Extract(history, template, sheets[..|sheets| - 1], llm, decode);
      var sheet := sheets[|sheets| - 1];
      if sofar.result.Err? then sofar
      else match FieldsOf(template, sheet)
        case None => sofar
        case Some(fields) => Exchange(sofar.history, sofar.result.value, sheet, fields, llm, decode)
  }

  /** The check after the loop: no generated sheet is an error. */
  function Finish(e: Extraction): Extraction
  {
    if e.result == Ok([]) then Extraction(e.history, Err(NoSheetsProcessed)) else e
  }

  /** Once a reply is unusable, later sheets change nothing. */
  lemma {:induction false} ExtractStops(history: seq<Message>, template: seq<TemplateSheet>, sheets: seq<string>,
                                        llm: seq<Message> -> string, decode: string -> Option<Json>, n: nat)
    requires n <= |sheets| && Extract(history, template, sheets[..n], llm, decode).result.Err?
    ensures Extract(history, template, sheets, llm, decode) == Extract(history, template, sheets[..n], llm, decode)
    decreases |sheets|
  {
    if n < |sheets| {
      var init := sheets[..|sheets| - 1];
      assert init[..n] == sheets[..n];
      ExtractStops(history, template, init, llm, decode, n);
    } else {
      assert sheets[..n] == sheets;
    }
  }

  /** The loop only appends to the history. */
  lemma {:induction false} ExtractKeepsHistory(history: seq<Message>, template: seq<TemplateSheet>, sheets: seq<string>,
                                               llm: seq<Message> -> string, decode: string -> Option<Json>)
    ensures var e := Extract(history, template, sheets, llm, decode);
            |history| <= |e.history| && e.history[..|history|] == history
    decreases |sheets|
  {
    if sheets != [] {
      var init := sheets[..|sheets| - 1];
      ExtractKeepsHistory(history, template, init, llm, decode);
      var sofar := Extract(history, template, init, llm, decode);
      var e := Extract(history, template, sheets, llm, decode);
      if e != sofar {
        assert e.history[..|sofar.history|] == sofar.history;
      }
    }
  }

  /** On success the generated sheets are exactly the template's sheets, in loop
      order. */
  lemma {:induction false} ExtractGeneratesPresentSheets(history: seq<Message>, template: seq<TemplateSheet>,
                                                         sheets: seq<string>, llm: seq<Message> -> string,
                                                         decode: string -> Option<Json>)
    ensures var e := Extract(history, template, sheets, llm, decode);
            e.result.Ok? ==> Names(e.result.value) == PresentSheets(template, sheets)
    decreases |sheets|
  {
    if sheets != [] {
      ExtractGeneratesPresentSheets(history, template, sheets[..|sheets| - 1], llm, decode);
    }
  }

  /** On success every generated sheet has its own exchange in the history, in
      order, after the starting messages. */
  lemma {:induction false} ExtractTranscript(history: seq<Message>, template: seq<TemplateSheet>, sheets: seq<string>,
                                             llm: seq<Message> -> string, decode: string -> Option<Json>)
    ensures var e := Extract(history, template, sheets, llm, decode);
            e.result.Ok? ==> Transcript(e.history, |history|, e.result.value, template, llm, decode)
    decreases |sheets|
  {
    if sheets != [] {
      var init := sheets[..|sheets| - 1];
      var sheet := sheets[|sheets| - 1];
      ExtractTranscript(history, template, init, llm, decode);
      var sofar := Extract(history, template, init, llm, decode);
      if sofar.result.Ok? && FieldsOf(template, sheet).Some? {
        var fields := FieldsOf(template, sheet).value;
        var e := Exchange(sofar.history, sofar.result.value, sheet, fields, llm, decode);
        if e.result.Ok? {
          assert e.history[..|e.history| - 1] == sofar.history + [Message(User, FieldPrompt(sheet, fields))];
          assert e.history[..|e.history| - 2] == sofar.history;
          TranscriptSnoc(e.history, |history|, sofar.result.value, sheet, e.result.value[|e.result.value| - 1].1,
                         template, llm, decode);
        }
      }
    }
  }

  /** A failure names a sheet of the loop that the template has. */
  lemma {:induction false} ExtractFailure(history: seq<Message>, template: seq<TemplateSheet>, sheets: seq<string>,
                                          llm: seq<Message> -> string, decode: string -> Option<Json>)
    ensures var e := Extract(history, template, sheets, llm, decode);
            e.result.Err? ==>
              e.result.error.UnsupportedReply? && e.result.error.sheet in sheets &&
              FieldsOf(template, e.result.error.sheet).Some?
    decreases |sheets|
  {
    if sheets != [] {
      var init := sheets[..|sheets| - 1];
      ExtractFailure(history, template, init, llm, decode);
      assert forall x :: x in init ==> x in sheets;
    }
  }

  /** When the template has none of the sheets, nothing is asked and nothing is
      generated. */
  lemma {:induction false} ExtractNothing(history: seq<Message>, template: seq<TemplateSheet>, sheets: seq<string>,
                                          llm: seq<Message> -> string, decode: string -> Option<Json>)
    requires PresentSheets(template, sheets) == []
    ensures Extract(history, template, sheets, llm, decode) == Extraction(history, Ok([]))
    decreases |sheets|
  {
    if sheets != [] {
      ExtractNothing(history, template, sheets[..|sheets| - 1], llm, decode);
    }
  }

  /** The loop over `sheets_to_process` (passed as `sheets`) and the check that
      follows it, on the conversation object. */
  method ExtractSheets(conv: Conversation, template: seq<TemplateSheet>, sheets: seq<string>,
                       llm: seq<Message> -> string, decode: string -> Option<Json>)
    returns (res: Result<seq<(string, Frame)>, ManifestError>)
    modifies conv
    ensures Extraction(conv.messages, res) == Finish(Extract(old(conv.messages), template, sheets, llm, decode))
  {
    var generated: seq<(string, Frame)> := [];
    var k := 0;
    while k < |sheets|
      invariant k <= |sheets|
      invariant Extraction(conv.messages, Ok(generated)) ==
                Extract(old(conv.messages), template, sheets[..k], llm, decode)
    {
      var sheet := sheets[k];
      assert sheets[..k + 1][..k] == sheets[..k];
      var fields := FieldsOf(template, sheet);
      if fields.Some? {
        var reply := conv.QueryForSheet(sheet, fields.value, llm);
        var frame := SheetFrame(decode(reply), fields.value);
        if frame.None? {
          ExtractStops(old(conv.messages), template, sheets, llm, decode, k + 1);
          return Err(UnsupportedReply(sheet));
        }
        generated := generated + [(sheet, frame.value)];
      }
      k := k + 1;
    }
    assert sheets[..k] == sheets;
    if generated == [] {
      return Err(NoSheetsProcessed);
    }
    return Ok(generated);
  }

  /** The saved manifest of one PDF: the conversation that produced it and, per
      generated sheet in workbook order, its frame, its state and its column widths. */
  datatype Manifest = Manifest(messages: seq<Message>, sheets: seq<(string, Frame)>,
                               states: seq<SheetState>, widths: seq<map<nat, nat>>)

  /** The seven sheet names are distinct. */
  lemma SheetsToProcessDistinct()
    ensures NoDuplicates(SheetsToProcess)
  {
    var s := SheetsToProcess;
    assert forall i :: 0 <= i < |s| ==> s[i][0] == ['s', 'p', 's', 'd', 'c', 'l', 's'][i];
    assert forall i :: 0 <= i < |s| ==> |s[i]| == [5, 6, 6, 12, 15, 8, 10][i];
  }

  /** With distinct names, the frame found for a sheet is its own. */
  lemma {:induction false} FrameOfOwn(generated: seq<(string, Frame)>, i: nat)
    requires NoDuplicates(Names(generated)) && i < |generated|
    ensures FrameOf(generated, generated[i].0) == Some(generated[i].1)
    decreases |generated|
  {
    NamesAt(generated);
    var last := |generated| - 1;
    if i < last {
      var init := generated[..last];
      NamesAt(init);
      assert Names(generated) == Names(init) + [generated[last].0];
      assert Names(generated)[i] != Names(generated)[last];
      FrameOfOwn(init, i);
    }
  }

  /** Writing the generated sheets and then fitting, showing and repairing the
      reloaded workbook: the workbook holds exactly the generated sheets, so every
      sheet ends visible (the repair changes nothing) and every column of every
      sheet gets its fitted width. */
  method FinishWorkbook(generated: seq<(string, Frame)>)
    returns (states: seq<SheetState>, widths: seq<map<nat, nat>>)
    requires generated != [] && NoDuplicates(Names(generated))
    ensures |states| == |generated| && |widths| == |generated|
    ensures forall k :: 0 <= k < |generated| ==> states[k] == Visible
    ensures forall k, c: nat :: 0 <= k < |generated| && 1 <= c <= |generated[k].1.columns| ==>
              c in widths[k] && widths[k][c] == ColumnWidths(generated[k].1)[c - 1]
  {
    NamesAt(generated);
    var wb := new Workbook(Names(generated), seq(|generated|, _ => Visible));
    wb.ShowGenerated(generated);
    wb.EnsureVisibleSheet();
    forall k | 0 <= k < |generated|
      ensures wb.widths[k] == FittedWidths(map[], ColumnWidths(generated[k].1), |generated[k].1.columns|)
    {
      FrameOfOwn(generated, k);
    }
    forall k, c: nat | 0 <= k < |generated| && 1 <= c <= |generated[k].1.columns|
      ensures c in wb.widths[k] && wb.widths[k][c] == ColumnWidths(generated[k].1)[c - 1]
    {
      FittedWidthsAt(map[], ColumnWidths(generated[k].1), |generated[k].1.columns|, c);
    }
    states, widths := wb.states, wb.widths;
  }

  /** The body of the loop over input PDFs: extract the sheets in the fixed order,
      then write and finish the workbook. */
  method ProcessPdf(systemPrompt: string, pdfText: string, template: seq<TemplateSheet>,
                    llm: seq<Message> -> string, decode: string -> Option<Json>)
    returns (res: Result<Manifest, ManifestError>)
    ensures res.Ok? ==>
              var m := res.value;
              Names(m.sheets) == PresentSheets(template, SheetsToProcess) &&
              |m.messages| == 2 + 2 * |m.sheets| &&
              m.messages[..2] == [Message(System, systemPrompt), Message(User, PaperPrompt(pdfText))] &&
              Transcript(m.messages, 2, m.sheets, template, llm, decode) &&
              |m.states| == |m.sheets| && |m.widths| == |m.sheets| &&
              forall k :: 0 <= k < |m.sheets| ==>
                m.states[k] == Visible &&
                forall c: nat :: 1 <= c <= |m.sheets[k].1.columns| ==>
                  c in m.widths[k] && m.widths[k][c] == ColumnWidths(m.sheets[k].1)[c - 1]
    ensures res == Err(NoSheetsProcessed) <==> PresentSheets(template, SheetsToProcess) == []
    ensures res.Err? && res.error.UnsupportedReply? ==> res.error.sheet in PresentSheets(template, SheetsToProcess)
  {
    var conv := new Conversation(systemPrompt, pdfText);
    ghost var base := conv.messages;
    var extracted := ExtractSheets(conv, template, SheetsToProcess, llm, decode);
    ExtractKeepsHistory(base, template, SheetsToProcess, llm, decode);
    ExtractGeneratesPresentSheets(base, template, SheetsToProcess, llm, decode);
    ExtractTranscript(base, template, SheetsToProcess, llm, decode);
    ExtractFailure(base, template, SheetsToProcess, llm, decode);
    if PresentSheets(template, SheetsToProcess) == [] {
      ExtractNothing(base, template, SheetsToProcess, llm, decode);
    }
    SheetsToProcessDistinct();
    PresentSheetsMembers(template, SheetsToProcess);
    if extracted.Err? {
      return Err(extracted.error);
    }
    var generated := extracted.value;
    TranscriptLength(conv.messages, 2, generated, template, llm, decode);
    var states, widths := FinishWorkbook(generated);
    res := Ok(Manifest(conv.messages, generated, states, widths));
  }

  // ---------------------------------------------------------------------------
  //  Input files and output paths
  // ---------------------------------------------------------------------------

  /** An entry of the input directory. */
  datatype Entry = Entry(name: string, isFile: bool)

  /** A PDF to process and the manifest path it gets. */
  datatype Job = Job(input: string, output: string)

  /** The position of the last occurrence of `c`. */
  function LastIndexOf(s: string, c: char): (k: Option<nat>)
    ensures k.Some? ==> k.value < |s| && s[k.value] == c && forall j :: k.value < j < |s| ==> s[j] != c
    ensures k.None? ==> c !in s
    decreases |s|
  {
    if s == [] then None
    else if s[|s| - 1] == c then Some(|s| - 1)
    else LastIndexOf(s[..|s| - 1], c)
  }

  /** The name without its suffix, as `Path.with_suffix` sees it: a suffix starts at
      the last dot, which must be neither the first nor the last character. */
  function Stem(name: string): string
  {
    match LastIndexOf(name, '.')
    case Some(k) => if 0 < k < |name| - 1 then name[..k] else name
    case None => name
  }

  /** `Path("completed_manifests/" + name).with_suffix(".xlsx")`. */
  function OutputPath(name: string): string
  {
    OutputDir + "/" + Stem(name) + ".xlsx"
  }

  /** A PDF named `<stem>.pdf` gets the manifest `completed_manifests/<stem>.xlsx`. */
  lemma OutputPathOfPdf(stem: string)
    requires stem != []
    ensures OutputPath(stem + ".pdf") == OutputDir + "/" + stem + ".xlsx"
  {
    var name := stem + ".pdf";
    var k := LastIndexOf(name, '.');
    assert name[|stem|] == '.';
    assert name[..|stem|] == stem;
    assert k == Some(|stem|) by {
      assert name[|stem| + 1] == 'p' && name[|stem| + 2] == 'd' && name[|stem| + 3] == 'f';
    }
  }

  /** The loop's filter: regular files whose name does not contain ".DS_Store". */
  predicate IsInput(e: Entry)
  {
    e.isFile && !Contains(e.name, ".DS_Store")
  }

  /** The PDFs processed, in directory order, with their output paths. */
  function Jobs(entries: seq<Entry>): (jobs: seq<Job>)
    ensures |jobs| <= |entries|
    ensures forall j :: j in jobs ==> exists e :: e in entries && IsInput(e) && j == Job(e.name, OutputPath(e.name))
    ensures forall e :: e in entries && IsInput(e) ==> Job(e.name, OutputPath(e.name)) in jobs
    decreases |entries|
  {
    if entries == [] then []
    else
      var init := entries[..|entries| - 1];
      var last := entries[|entries| - 1];
      assert forall e :: e in entries <==> e in init || e == last;
      Jobs(init) + (if IsInput(last) then [Job(last.name, OutputPath(last.name))] else [])
  }

  /** `for file in input_pdf_path.iterdir()` with its two skips. */
  method SelectJobs(entries: seq<Entry>) returns (jobs: seq<Job>)
    ensures jobs == Jobs(entries)
  {
    jobs := [];
    var i := 0;
    while i < |entries|
      invariant i <= |entries|
      invariant jobs == Jobs(entries[..i])
    {
      var e := entries[i];
      assert entries[..i + 1][..i] == entries[..i];
      if e.isFile && !Contains(e.name, ".DS_Store") {
        jobs := jobs + [Job(e.name, OutputPath(e.name))];
      }
      i := i + 1;
    }
    assert entries[..i] == entries;
  }
}
