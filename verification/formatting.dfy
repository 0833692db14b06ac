/** The text the dispatcher returns: the `search-events` listing and the
    `create-event` confirmation, together with readers that recover the event
    count and each entry's fields from the text. */
module Formatting {
  import opened Wrappers
  import opened Errors
  import opened CalendarApi
  import opened Decimal
  import opened Spans

  /** A protocol content block. The server only ever produces text blocks. */
  datatype Content = Text(text: string)

  const NoEventsText := "No events found"
  const EntrySeparator := "\n\n"
  const StartLabel := "\n  Start: "
  const EndLabel := "\n  End: "

  predicate StartsWith(s: string, prefix: string) {
    |prefix| <= |s| && s[..|prefix|] == prefix
  }

  /** `event.get('summary', 'Untitled')`: the fallback applies only when the key
      is missing. */
  function Title(e: Event): string {
    e.summary.GetOr("Untitled")
  }

  /** `field.get('dateTime', field.get('date'))` as an f-string renders it: the
      date-time, else the all-day date, else `None`. */
  function TimeText(t: TimeField): string {
    t.dateTime.GetOr(t.date.GetOr("None"))
  }

  /** One listing entry. */
  function RenderEntry(title: string, start: string, end: string): string {
    "- " + (title + (StartLabel + (start + (EndLabel + end))))
  }

  /** The entry of one event. `event['start']` is read before `event['end']`,
      and a missing one raises a `KeyError`. */
  function EntryText(e: Event): (r: Result<string, Error>)
    ensures e.start.None? ==> r == Failure(KeyError("start"))
    ensures e.start.Some? && e.end.None? ==> r == Failure(KeyError("end"))
    ensures r.Success? <==> e.start.Some? && e.end.Some?
  {
    match e.start
    case None => Failure(KeyError("start"))
    case Some(start) =>
      match e.end
      case None => Failure(KeyError("end"))
      case Some(end) => Success(RenderEntry(Title(e), TimeText(start), TimeText(end)))
  }

  /** The entries of all events, in order; the first event whose entry raises
      decides the error. */
  function Entries(items: seq<Event>): (r: Result<seq<string>, Error>)
    ensures r.Success? <==> forall i :: 0 <= i < |items| ==> EntryText(items[i]).Success?
    ensures r.Success? ==> |r.value| == |items|
                           && forall i {:trigger EntryText(items[i])} :: 0 <= i < |items| ==> r.value[i] == EntryText(items[i]).value
    ensures r.Failure? ==> exists k :: 0 <= k < |items|
                             && EntryText(items[k]).Failure?
                             && r.error == EntryText(items[k]).error
                             && forall j :: 0 <= j < k ==> EntryText(items[j]).Success?
    decreases |items|
  {
    if |items| == 0 then Success([])
    else
      var first :- EntryText(items[0]);
      var rest :- Entries(items[1..]);
      Success([first] + rest)
  }

  /** `sep.join(xs)`. */
  function Join(xs: seq<string>, sep: string): string
    decreases |xs|
  {
    if |xs| == 0 then ""
    else if |xs| == 1 then xs[0]
    else xs[0] + sep + Join(xs[1..], sep)
  }

  /** Where the `i`-th piece starts in `Join(xs, sep)`. */
  function Offset(xs: seq<string>, sep: string, i: nat): nat
    requires i <= |xs|
    decreases i
  {
    if i == 0 then 0 else |xs[0]| + |sep| + Offset(xs[1..], sep, i - 1)
  }

  /** `"Found N events:\n\n"`. */
  function Header(n: nat): string {
    "Found " + NatToString(n) + " events:" + EntrySeparator
  }

  /** `events_result.get('items', [])`. */
  function Items(resp: ListResponse): seq<Event> {
    resp.items.GetOr([])
  }

  /** The `search-events` result: one text block, either the no-events message or
      the header followed by the entries separated by blank lines. */
  function SearchResultText(resp: ListResponse): (r: Result<seq<Content>, Error>)
    ensures r.Success? ==> |r.value| == 1
    ensures |Items(resp)| == 0 ==> r == Success([Text(NoEventsText)])
    ensures |Items(resp)| > 0 ==>
              (r.Success? <==> forall i :: 0 <= i < |Items(resp)| ==> EntryText(Items(resp)[i]).Success?)
  {
    var items := Items(resp);
    if |items| == 0 then Success([Text(NoEventsText)])
    else
      var entries :- Entries(items);
      Success([Text(Header(|items|) + Join(entries, EntrySeparator))])
  }

  /** The listing as the source builds it: a loop appending one entry per event,
      then the join. It computes exactly `SearchResultText`. */
  method FormatSearchResult(resp: ListResponse) returns (r: Result<seq<Content>, Error>)
    ensures r == SearchResultText(resp)
  {
    var items := Items(resp);
    if |items| == 0 {
      return Success([Text(NoEventsText)]);
    }
    var eventList: seq<string> := [];
    var i := 0;
    while i < |items|
      invariant 0 <= i <= |items|
      invariant |eventList| == i
      invariant forall j :: 0 <= j < i ==> EntryText(items[j]).Success?
                                           && eventList[j] == EntryText(items[j]).value
    {
      var entry := EntryText(items[i]);
      if entry.Failure? {
        return Failure(entry.error);
      }
      eventList := eventList + [entry.value];
      i := i + 1;
    }
    assert eventList == Entries(items).value;
    return Success([Text(Header(|items|) + Join(eventList, EntrySeparator))]);
  }

  /** The `create-event` confirmation. The log line reads `id` first; then the
      text reads `summary`, `start.dateTime`, `end.dateTime` and `id`. Any missing
      key raises a `KeyError`. */
  function CreatedText(ev: Event): (r: Result<string, Error>)
    ensures r.Success? <==> && ev.id.Some? && ev.summary.Some?
                            && ev.start.Some? && ev.start.value.dateTime.Some?
                            && ev.end.Some? && ev.end.value.dateTime.Some?
    ensures ev.id.None? ==> r == Failure(KeyError("id"))
    ensures r.Success? ==> StartsWith(r.value, "Created event: " + ev.summary.value)
  {
    if ev.id.None? then Failure(KeyError("id"))
    else if ev.summary.None? then Failure(KeyError("summary"))
    else if ev.start.None? then Failure(KeyError("start"))
    else if ev.start.value.dateTime.None? then Failure(KeyError("dateTime"))
    else if ev.end.None? then Failure(KeyError("end"))
    else if ev.end.value.dateTime.None? then Failure(KeyError("dateTime"))
    else
      var head := "Created event: " + ev.summary.value;
      var text := head + "\nStart: " + ev.start.value.dateTime.value
                  + "\nEnd: " + ev.end.value.dateTime.value
                  + "\nID: " + ev.id.value;
      assert text[..|head|] == head;
      Success(text)
  }

  // ---------------------------------------------------------------------------
  // Reading the text back

  /** The count a listing's header announces, if the text starts with one. */
  function ReadCount(text: string): Option<nat> {
    if !StartsWith(text, "Found ") then None
    else
      var digits := TakeDigits(text[6..]);
      var rest := text[6 + |digits|..];
      if |digits| == 0 || !StartsWith(rest, " events:") then None
      else Some(DigitsValue(digits))
  }

  /** The index of the first line break of `s`, or `|s|` when there is none. */
  function FindNewline(s: string): (k: nat)
    ensures k <= |s|
    ensures k < |s| ==> s[k] == '\n'
    ensures forall i :: 0 <= i < k ==> s[i] != '\n'
    decreases |s|
  {
    if |s| == 0 || s[0] == '\n' then 0 else 1 + FindNewline(s[1..])
  }

  /** What follows `prefix` in `s`, when `s` starts with it. */
  function AfterLabel(s: string, prefix: string): Option<string> {
    if StartsWith(s, prefix) then Some(s[|prefix|..]) else None
  }

  /** `s` split at its first line break: the line, then the rest from the break on. */
  function ReadLine(s: string): (string, string) {
    var k := FindNewline(s);
    (s[..k], s[k..])
  }

  /** Splits an entry back into its title, start and end. */
  function ParseEntry(text: string): Option<(string, string, string)> {
    match AfterLabel(text, "- ")
    case None => None
    case Some(afterDash) =>
      var (title, afterTitle) := ReadLine(afterDash);
      match AfterLabel(afterTitle, StartLabel)
      case None => None
      case Some(afterStartLabel) =>
        var (start, afterStart) := ReadLine(afterStartLabel);
        match AfterLabel(afterStart, EndLabel)
        case None => None
        case Some(end) => Some((title, start, end))
  }

  // ---------------------------------------------------------------------------
  // Lemmas

  /** The first line break of `a + b` is the one `b` starts with, when `a` has none. */
  lemma FindNewlineAfter(a: string, b: string)
    requires forall i :: 0 <= i < |a| ==> a[i] != '\n'
    requires |b| > 0 && b[0] == '\n'
    ensures FindNewline(a + b) == |a|
  {
    var s := a + b;
    var k := FindNewline(s);
    assert s[|a|] == '\n';
  }

  /** An entry whose title and start hold no line break reads back as the title,
      start and end it was rendered from. */
  lemma ParseRenderEntry(title: string, start: string, end: string)
    requires forall i :: 0 <= i < |title| ==> title[i] != '\n'
    requires forall i :: 0 <= i < |start| ==> start[i] != '\n'
    ensures ParseEntry(RenderEntry(title, start, end)) == Some((title, start, end))
  {
    var afterStart := EndLabel + end;
    var afterStartLabel := start + afterStart;
    var afterTitle := StartLabel + afterStartLabel;
    var afterDash := title + afterTitle;
    AfterLabelOf("- ", afterDash);
    ReadLineOf(title, afterTitle);
    AfterLabelOf(StartLabel, afterStartLabel);
    ReadLineOf(start, afterStart);
    AfterLabelOf(EndLabel, end);
  }

  /** A label followed by a text leaves exactly that text. */
  lemma AfterLabelOf(prefix: string, rest: string)
    ensures AfterLabel(prefix + rest, prefix) == Some(rest)
  {
    ConcatSplits(prefix, rest);
  }

  /** A line without a break, followed by a text that starts with one, reads
      back as that line and that text. */
  lemma ReadLineOf(line: string, rest: string)
    requires forall i :: 0 <= i < |line| ==> line[i] != '\n'
    requires |rest| > 0 && rest[0] == '\n'
    ensures ReadLine(line + rest) == (line, rest)
  {
    FindNewlineAfter(line, rest);
    ConcatSplits(line, rest);
  }

  /** An event's entry reads back as its summary, or "Untitled" when the key is
      missing, and its start and end, each the `dateTime` when present, else the
      `date`, else `None`; provided the title and start hold no line break. */
  lemma EntryReadsBack(e: Event)
    requires e.start.Some? && e.end.Some?
    requires forall i :: 0 <= i < |Title(e)| ==> Title(e)[i] != '\n'
    requires forall i :: 0 <= i < |TimeText(e.start.value)| ==> TimeText(e.start.value)[i] != '\n'
    ensures EntryText(e).Success?
    ensures ParseEntry(EntryText(e).value).Some?
    ensures var (title, start, end) := ParseEntry(EntryText(e).value).value;
            && title == (if e.summary.Some? then e.summary.value else "Untitled")
            && start == (if e.start.value.dateTime.Some? then e.start.value.dateTime.value
                         else if e.start.value.date.Some? then e.start.value.date.value
                         else "None")
            && end == (if e.end.value.dateTime.Some? then e.end.value.dateTime.value
                       else if e.end.value.date.Some? then e.end.value.date.value
                       else "None")
  {
    ParseRenderEntry(Title(e), TimeText(e.start.value), TimeText(e.end.value));
  }

  /** The header announces the count it was built from, whatever follows it. */
  lemma ReadCountOfHeader(n: nat, body: string)
    ensures ReadCount(Header(n) + body) == Some(n)
  {
    var digits := NatToString(n);
    var rest := " events:" + EntrySeparator + body;
    assert Header(n) + body == "Found " + (digits + rest);
    assert rest[..8] == " events:";
    ReadCountOfDigits(digits, rest);
    DigitsValueOfNatToString(n);
  }

  /** "Found ", a number and " events:" read back as that number. */
  lemma ReadCountOfDigits(digits: string, rest: string)
    requires |digits| > 0 && AllDigits(digits)
    requires StartsWith(rest, " events:")
    ensures ReadCount("Found " + (digits + rest)) == Some(DigitsValue(digits))
  {
    var text := "Found " + (digits + rest);
    ConcatSplits("Found ", digits + rest);
    ConcatSplits(digits, rest);
    TakeDigitsOfNumber(digits, rest);
    assert text[6 + |digits|..] == (digits + rest)[|digits|..];
  }

  /** A concatenation splits back into its two parts. */
  lemma ConcatSplits(p: string, s: string)
    ensures (p + s)[..|p|] == p && (p + s)[|p|..] == s
  {
  }

  /** The no-events message announces no count. */
  lemma ReadCountOfNoEvents()
    ensures ReadCount(NoEventsText) == None
  {
  }

  /** `Join` of two or more pieces is the first piece, the separator, and the
      join of the rest. */
  lemma JoinUnfold(xs: seq<string>, sep: string)
    requires |xs| >= 2
    ensures Join(xs, sep) == xs[0] + (sep + Join(xs[1..], sep))
  {
  }

  /** Piece `i` of `Join(xs, sep)` sits at `Offset(xs, sep, i)`. */
  lemma {:induction false} JoinPlacesPiece(xs: seq<string>, sep: string, i: nat)
    requires i < |xs|
    ensures Offset(xs, sep, i) + |xs[i]| <= |Join(xs, sep)|
    ensures Join(xs, sep)[Offset(xs, sep, i)..Offset(xs, sep, i) + |xs[i]|] == xs[i]
    decreases i
  {
    if |xs| == 1 {
      assert Join(xs, sep) == xs[0];
    } else {
      JoinUnfold(xs, sep);
      var tail := Join(xs[1..], sep);
      if i == 0 {
        ConcatSplits(xs[0], sep + tail);
      } else {
        JoinPlacesPiece(xs[1..], sep, i - 1);
        var o' := Offset(xs[1..], sep, i - 1);
        assert xs[1..][i - 1] == xs[i];
        assert Join(xs, sep) == (xs[0] + sep) + tail;
        assert Offset(xs, sep, i) == |xs[0] + sep| + o';
        SliceAfterPrefix(xs[0] + sep, tail, o', o' + |xs[i]|);
      }
    }
  }

  /** A separator follows every piece of `Join(xs, sep)` but the last. */
  lemma {:induction false} JoinSeparatesPieces(xs: seq<string>, sep: string, i: nat)
    requires i + 1 < |xs|
    ensures Offset(xs, sep, i) + |xs[i]| + |sep| <= |Join(xs, sep)|
    ensures Join(xs, sep)[Offset(xs, sep, i) + |xs[i]|..Offset(xs, sep, i) + |xs[i]| + |sep|] == sep
    decreases i
  {
    if i == 0 {
      JoinFirstSeparator(xs, sep);
    } else {
      JoinUnfold(xs, sep);
      var tail := Join(xs[1..], sep);
      JoinSeparatesPieces(xs[1..], sep, i - 1);
      var e := Offset(xs[1..], sep, i - 1) + |xs[i]|;
      assert xs[1..][i - 1] == xs[i];
      assert Offset(xs, sep, i) + |xs[i]| == |xs[0] + sep| + e;
      assert Join(xs, sep) == (xs[0] + sep) + tail;
      SliceAfterPrefix(xs[0] + sep, tail, e, e + |sep|);
    }
  }

  /** The first piece of `Join(xs, sep)` is followed by the separator. */
  lemma JoinFirstSeparator(xs: seq<string>, sep: string)
    requires |xs| >= 2
    ensures |xs[0]| + |sep| <= |Join(xs, sep)|
    ensures Join(xs, sep)[|xs[0]|..|xs[0]| + |sep|] == sep
  {
    JoinUnfold(xs, sep);
    var tail := Join(xs[1..], sep);
    SliceAfterPrefix(xs[0], sep + tail, 0, |sep|);
    ConcatSplits(sep, tail);
  }

  /** The last piece of `Join(xs, sep)` ends the text. */
  lemma {:induction false} JoinEndsWithLastPiece(xs: seq<string>, sep: string)
    requires |xs| > 0
    ensures Offset(xs, sep, |xs| - 1) + |xs[|xs| - 1]| == |Join(xs, sep)|
    decreases |xs|
  {
    if |xs| > 1 {
      JoinUnfold(xs, sep);
      JoinEndsWithLastPiece(xs[1..], sep);
      assert xs[1..][|xs| - 2] == xs[|xs| - 1];
    }
  }

  /** The text of a successful non-empty listing: header, then the joined entries. */
  lemma ListingText(resp: ListResponse)
    requires SearchResultText(resp).Success?
    requires |Items(resp)| > 0
    ensures Entries(Items(resp)).Success?
    ensures SearchResultText(resp).value[0].text
            == Header(|Items(resp)|) + Join(Entries(Items(resp)).value, EntrySeparator)
  {
  }

  /** A non-empty listing announces the number of events it lists. */
  lemma ListingAnnouncesCount(resp: ListResponse)
    requires SearchResultText(resp).Success?
    requires |Items(resp)| > 0
    ensures ReadCount(SearchResultText(resp).value[0].text) == Some(|Items(resp)|)
  {
    ListingText(resp);
    ReadCountOfHeader(|Items(resp)|, Join(Entries(Items(resp)).value, EntrySeparator));
  }

  /** Entry `i` of a listing's text is the entry of event `i`, in the order the
      API returned the events. */
  lemma ListingPlacesEntry(resp: ListResponse, i: nat)
    requires SearchResultText(resp).Success?
    requires i < |Items(resp)|
    ensures var text := SearchResultText(resp).value[0].text;
            var entries := Entries(Items(resp)).value;
            && PlacedAt(text, |Header(|Items(resp)|)| + Offset(entries, EntrySeparator, i), entries[i])
            && entries[i] == EntryText(Items(resp)[i]).value
  {
    ListingText(resp);
    PlacedEntry(SearchResultText(resp).value[0].text, Header(|Items(resp)|),
                Entries(Items(resp)).value, EntryText(Items(resp)[i]).value, i);
  }

  /** `ListingPlacesEntry` on the text alone. */
  lemma PlacedEntry(text: string, header: string, entries: seq<string>, entry: string, i: nat)
    requires text == header + Join(entries, EntrySeparator)
    requires i < |entries| && entries[i] == entry
    ensures PlacedAt(text, |header| + Offset(entries, EntrySeparator, i), entries[i])
    ensures entries[i] == entry
  {
    PrefixedJoinPlacesPiece(text, header, entries, EntrySeparator, i);
  }

  /** `JoinPlacesPiece` behind a prefix. */
  lemma PrefixedJoinPlacesPiece(text: string, h: string, xs: seq<string>, sep: string, i: nat)
    requires text == h + Join(xs, sep)
    requires i < |xs|
    ensures PlacedAt(text, |h| + Offset(xs, sep, i), xs[i])
  {
    JoinPlacesPiece(xs, sep, i);
    var o := Offset(xs, sep, i);
    SliceAfterPrefix(h, Join(xs, sep), o, o + |xs[i]|);
  }

  /** `JoinSeparatesPieces` for blank-line separators, behind a prefix. */
  lemma PrefixedJoinBlankLine(text: string, h: string, xs: seq<string>, i: nat)
    requires text == h + Join(xs, EntrySeparator)
    requires i + 1 < |xs|
    ensures BlankLineAt(text, |h| + Offset(xs, EntrySeparator, i) + |xs[i]|)
  {
    JoinSeparatesPieces(xs, EntrySeparator, i);
    BlankLineBehind(text, h, Join(xs, EntrySeparator), Offset(xs, EntrySeparator, i) + |xs[i]|);
  }

  /** A blank line in `body` is one in `h + body`, shifted by `|h|`. */
  lemma BlankLineBehind(text: string, h: string, body: string, e: nat)
    requires text == h + body
    requires e + 2 <= |body| && body[e..e + 2] == EntrySeparator
    ensures BlankLineAt(text, |h| + e)
  {
    assert body[e] == body[e..e + 2][0] && body[e + 1] == body[e..e + 2][1];
  }

  /** The header ends with a blank line. */
  lemma HeaderEndsWithBlankLine(n: nat)
    ensures BlankLineAt(Header(n), |Header(n)| - 2)
  {
    var h := Header(n);
    var front := "Found " + NatToString(n) + " events:";
    assert h == front + "\n\n";
    ConcatSplits(front, "\n\n");
    assert h[|h| - 2..][0] == '\n' && h[|h| - 2..][1] == '\n';
  }

  /** A non-empty listing's text opens with its header "Found N events:",
      followed by a blank line, whatever the number of events. */
  lemma ListingOpensWithHeader(resp: ListResponse)
    requires SearchResultText(resp).Success?
    requires |Items(resp)| > 0
    ensures var text := SearchResultText(resp).value[0].text;
            var header := Header(|Items(resp)|);
            && header == "Found " + NatToString(|Items(resp)|) + " events:\n\n"
            && |header| <= |text| && text[..|header|] == header
  {
    ListingText(resp);
    ConcatSplits(Header(|Items(resp)|), Join(Entries(Items(resp)).value, EntrySeparator));
  }

  /** A failing listing raises the error of the first event without a start or
      an end: `KeyError('start')` or `KeyError('end')`. */
  lemma ListingFailsWithFirstEntryError(resp: ListResponse)
    requires SearchResultText(resp).Failure?
    ensures |Items(resp)| > 0 && Entries(Items(resp)).Failure?
    ensures SearchResultText(resp).error == Entries(Items(resp)).error
    ensures exists k :: 0 <= k < |Items(resp)|
              && EntryText(Items(resp)[k]).Failure?
              && SearchResultText(resp).error == EntryText(Items(resp)[k]).error
              && forall j :: 0 <= j < k ==> EntryText(Items(resp)[j]).Success?
    ensures SearchResultText(resp).error == KeyError("start")
            || SearchResultText(resp).error == KeyError("end")
  {
  }

  /** A listing's text opens with its header, which ends with a blank line, and
      a blank line separates each entry from the next. */
  lemma ListingSeparatesEntries(resp: ListResponse, i: nat)
    requires SearchResultText(resp).Success?
    requires i + 1 < |Items(resp)|
    ensures var text := SearchResultText(resp).value[0].text;
            var header := Header(|Items(resp)|);
            PlacedAt(text, 0, header)
    ensures var header := Header(|Items(resp)|);
            BlankLineAt(header, |header| - 2)
    ensures var text := SearchResultText(resp).value[0].text;
            var header := Header(|Items(resp)|);
            var entries := Entries(Items(resp)).value;
            BlankLineAt(text, |header| + Offset(entries, EntrySeparator, i) + |entries[i]|)
  {
    ListingOpensWithHeader(resp);
    HeaderEndsWithBlankLine(|Items(resp)|);
    ListingBlankLineAfterEntry(resp, i);
  }

  /** The blank line after entry `i` of a listing. */
  lemma ListingBlankLineAfterEntry(resp: ListResponse, i: nat)
    requires SearchResultText(resp).Success?
    requires i + 1 < |Items(resp)|
    ensures var text := SearchResultText(resp).value[0].text;
            var header := Header(|Items(resp)|);
            var entries := Entries(Items(resp)).value;
            BlankLineAt(text, |header| + Offset(entries, EntrySeparator, i) + |entries[i]|)
  {
    ListingText(resp);
    PrefixedJoinBlankLine(SearchResultText(resp).value[0].text, Header(|Items(resp)|),
                          Entries(Items(resp)).value, i);
  }

  /** The last entry ends a listing's text. */
  lemma ListingEndsWithLastEntry(resp: ListResponse)
    requires SearchResultText(resp).Success?
    requires |Items(resp)| > 0
    ensures var text := SearchResultText(resp).value[0].text;
            var entries := Entries(Items(resp)).value;
            var n := |Items(resp)|;
            |Header(n)| + Offset(entries, EntrySeparator, n - 1) + |entries[n - 1]| == |text|
  {
    ListingText(resp);
    JoinEndsWithLastPiece(Entries(Items(resp)).value, EntrySeparator);
  }

  lemma SliceAfterPrefix(h: string, body: string, a: nat, b: nat)
    requires a <= b <= |body|
    ensures (h + body)[|h| + a..|h| + b] == body[a..b]
  {
  }
}
