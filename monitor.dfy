/**
 * The campaign monitor client (`monitorEvents`): a hand-written consumer of a
 * `text/event-stream` response. Each chunk read from the response is appended
 * to a pending-text buffer, the buffer is split on newlines, and every
 * complete line is parsed as `field: value`. A whitespace-only line ends a
 * record; the record's data is decoded as JSON in one of two shapes, turned
 * into an envelope `{campaign_id, event, data}`, and handed to `onEvent` when
 * it passes the client-side filter.
 *
 * `JSON.parse` is the function value `parse` (None when it throws); the
 * network, the abort controller and the text decoder are replaced by the
 * results they deliver (`FetchResult`, `ReadResult`).
 */
module Monitor {
  import opened Text
  import Lists

  // ---------------------------------------------------------------------------
  // Wire data
  // ---------------------------------------------------------------------------

  /** A value `JSON.parse` can return (numbers are integers in this model). */
  datatype Json =
    | JNull
    | JBool(b: bool)
    | JNum(n: int)
    | JStr(s: string)
    | JArr(items: seq<Json>)
    | JObj(fields: map<string, Json>)

  /** `DoorKnockerEventsEnum`. */
  datatype EventKind =
    | StartCampaign
    | QueriesGenerated
    | NewContact
    | SendingMessage
    | PausedCampaign
    | ResumedCampaign
    | CompletedCampaign

  /** The string each enum member stands for on the wire. */
  function Wire(k: EventKind): string
  {
    match k
    case StartCampaign => "start_campaign"
    case QueriesGenerated => "queries_generated"
    case NewContact => "new_contact"
    case SendingMessage => "sending_message"
    case PausedCampaign => "paused_campaign"
    case ResumedCampaign => "resumed_campaign"
    case CompletedCampaign => "completed_campaign"
  }

  /**
   * The object handed to `onEvent`. The fields hold whatever JSON the payload
   * carried; `data` is None when the payload object has no `data` key
   * (`parsedData.data` is then `undefined`).
   */
  datatype Envelope = Envelope(campaignId: Json, event: Json, data: Option<Json>)

  /** `MonitorParams`: query parameters sent with the request, for information only. */
  datatype MonitorParams = MonitorParams(campaignId: Option<int>, event: Option<EventKind>)

  /** `ClientFilterOptions`; a missing options object is `NoFilter`. */
  datatype Filter = Filter(campaignId: Option<int>, event: Option<EventKind>)

  const NoFilter := Filter(None, None)

  // ---------------------------------------------------------------------------
  // The request URL
  // ---------------------------------------------------------------------------

  const BaseUrl := "https://visually-nearby-kitten.ngrok-free.app"

  /**
   * The `name=value` pairs appended to the `URLSearchParams`, in order. The
   * values are decimal digits, `-`, lower-case letters and `_`, which form
   * encoding leaves as they are.
   */
  function QueryPairs(p: MonitorParams): seq<string>
  {
    (if p.campaignId.Some? then ["campaign_id=" + IntToString(p.campaignId.value)] else [])
    + (if p.event.Some? then ["event=" + Wire(p.event.value)] else [])
  }

  /** `queryParams.toString()`. */
  function QueryString(p: MonitorParams): string
  {
    var pairs := QueryPairs(p);
    if pairs == [] then "" else Join(pairs, '&')
  }

  /** The URL `monitorEvents` fetches: `?` and the query only when the query is not empty. */
  function MonitorUrl(p: MonitorParams): string
  {
    var q := QueryString(p);
    BaseUrl + "/monitor" + (if q == "" then "" else "?" + q)
  }

  /** The decimal text of an integer holds only `-` and digits, so never `&`. */
  lemma IntToStringHasNoAmpersand(n: int)
    ensures '&' !in IntToString(n)
  {
    var r := IntToString(n);
    forall k | 0 <= k < |r| ensures r[k] != '&' {
      if n < 0 && k > 0 {
        assert r[k] == r[1..][k - 1];
      }
    }
  }

  /** No query pair holds the `&` that separates them. */
  lemma QueryPairsSeparatorFree(p: MonitorParams)
    ensures forall k :: 0 <= k < |QueryPairs(p)| ==> '&' !in QueryPairs(p)[k]
  {
    var pairs := QueryPairs(p);
    forall k | 0 <= k < |pairs| ensures '&' !in pairs[k] {
      if p.campaignId.Some? && k == 0 {
        IntToStringHasNoAmpersand(p.campaignId.value);
        assert pairs[k] == "campaign_id=" + IntToString(p.campaignId.value);
      } else {
        assert pairs[k] == "event=" + Wire(p.event.value);
        WireHasNoAmpersand(p.event.value);
      }
    }
  }

  /**
   * The URL carries a query exactly when a parameter was given, and the query
   * splits on `&` back into the given parameters, campaign first.
   */
  lemma QueryStringRoundTrip(p: MonitorParams)
    ensures MonitorUrl(p) == BaseUrl + "/monitor" <==> p.campaignId.None? && p.event.None?
    ensures QueryString(p) != "" ==> MonitorUrl(p) == BaseUrl + "/monitor?" + QueryString(p)
    ensures QueryString(p) != "" ==> Split(QueryString(p), '&') == QueryPairs(p)
    ensures p.campaignId.Some? ==> QueryPairs(p)[0] == "campaign_id=" + IntToString(p.campaignId.value)
    ensures p.event.Some? ==> QueryPairs(p)[|QueryPairs(p)| - 1] == "event=" + Wire(p.event.value)
  {
    var pairs := QueryPairs(p);
    if pairs != [] {
      QueryPairsSeparatorFree(p);
      SplitJoin(pairs, '&');
      assert |MonitorUrl(p)| > |BaseUrl + "/monitor"|;
      assert BaseUrl + "/monitor" + ("?" + QueryString(p)) == BaseUrl + "/monitor?" + QueryString(p);
    }
  }

  /** The campaign id a query carries reads back as the same number. */
  lemma QueryCampaignDecodes(p: MonitorParams)
    requires p.campaignId.Some? && p.campaignId.value >= 0
    ensures var pair := Split(QueryString(p), '&')[0];
      && |pair| > 12 && pair[..12] == "campaign_id="
      && (forall k :: 12 <= k < |pair| ==> IsDigit(pair[k]))
      && DecimalValue(pair[12..]) == p.campaignId.value
  {
    var n: nat := p.campaignId.value;
    var digits := NatToString(n);
    var pair := "campaign_id=" + digits;
    var pairs := QueryPairs(p);
    assert pairs[0] == pair;
    QueryPairsSeparatorFree(p);
    SplitJoin(pairs, '&');
    assert QueryString(p) == Join(pairs, '&');
    assert Split(QueryString(p), '&')[0] == pair;
    DecimalRoundTrip(n);
    assert pair[12..] == digits;
    assert pair[..12] == "campaign_id=";
  }

  // ---------------------------------------------------------------------------
  // Type guards
  // ---------------------------------------------------------------------------

  /**
   * `isStartCampaignEvent`, `isQueriesGeneratedEvent`, `isNewContactEvent`,
   * `isPausedCampaignEvent`, `isResumedCampaignEvent` and
   * `isCompletedCampaignEvent` are this predicate for their kind (there is no
   * guard for `sending_message`).
   */
  predicate IsEventOf(e: Envelope, k: EventKind)
  {
    e.event == JStr(Wire(k))
  }

  /** At most one guard holds of an envelope. */
  lemma GuardsExclusive(e: Envelope, a: EventKind, b: EventKind)
    requires IsEventOf(e, a) && IsEventOf(e, b)
    ensures a == b
  {
    match a
    case StartCampaign => assert Wire(b)[..2] == "st";
    case QueriesGenerated =>
    case NewContact =>
    case SendingMessage => assert Wire(b)[..2] == "se";
    case PausedCampaign =>
    case ResumedCampaign =>
    case CompletedCampaign =>
  }

  // ---------------------------------------------------------------------------
  // Line parsing
  // ---------------------------------------------------------------------------

  /**
   * The record under construction: the value of the last `event:` line
   * (`currentEvent.event`; "" stands for unset, the code reads it only
   * through `||`) and the accumulated `data:` text (`eventData`).
   */
  datatype Record = Record(marker: string, data: string)

  const EmptyRecord := Record("", "")

  /** What a complete line is: whitespace only, without a colon, or a field. */
  datatype LineKind = Blank | NoColon | Field(name: string, value: string)

  /** Field name and value are the trimmed text before and after the first colon. */
  function Classify(line: string): LineKind
  {
    if Trim(line) == "" then Blank
    else match IndexOf(line, ':')
      case None => NoColon
      case Some(i) => Field(Trim(line[..i]), Trim(line[i + 1..]))
  }

  lemma ClassifyField(line: string, i: nat)
    requires Trim(line) != "" && IndexOf(line, ':') == Some(i)
    ensures Classify(line) == Field(Trim(line[..i]), Trim(line[i + 1..]))
  {
  }

  /** `event` overwrites the marker; `data` is appended after a newline if data is already there. */
  function AddField(rec: Record, name: string, value: string): Record
  {
    if name == "event" then rec.(marker := value)
    else if name == "data" then rec.(data := rec.data + (if rec.data != "" then "\n" else "") + value)
    else rec
  }

  // ---------------------------------------------------------------------------
  // Decoding and filtering
  // ---------------------------------------------------------------------------

  /** A non-null object that has both a `campaign_id` and an `event` key. */
  predicate SelfDescribing(j: Json)
  {
    j.JObj? && "campaign_id" in j.fields && "event" in j.fields
  }

  function Lookup(fields: map<string, Json>, key: string): Option<Json>
  {
    if key in fields then Some(fields[key]) else None
  }

  /** `currentEvent.campaign_id || filterOptions?.campaign_id || 0` (the record never sets a campaign id). */
  function BareCampaignId(f: Filter): int
  {
    if f.campaignId.Some? && f.campaignId.value != 0 then f.campaignId.value else 0
  }

  /** `currentEvent.event || filterOptions?.event || ''`. */
  function BareEvent(marker: string, f: Filter): string
  {
    if marker != "" then marker
    else if f.event.Some? && Wire(f.event.value) != "" then Wire(f.event.value)
    else ""
  }

  /** The envelope built from a parsed payload: self-describing, or a bare payload with defaults. */
  function ToEnvelope(j: Json, marker: string, f: Filter): Envelope
  {
    if SelfDescribing(j) then
      Envelope(j.fields["campaign_id"], j.fields["event"], Lookup(j.fields, "data"))
    else
      Envelope(JNum(BareCampaignId(f)), JStr(BareEvent(marker, f)), Some(j))
  }

  /** The client-side filter: every criterion that is set must match. */
  predicate Passes(f: Filter, e: Envelope)
  {
    && (f.campaignId.None? || e.campaignId == JNum(f.campaignId.value))
    && (f.event.None? || e.event == JStr(Wire(f.event.value)))
  }

  /** A self-describing payload gives the payload's own fields, whatever `event:` line the record had. */
  lemma SelfDescribingIgnoresMarker(j: Json, m1: string, m2: string, f1: Filter, f2: Filter)
    requires SelfDescribing(j)
    ensures ToEnvelope(j, m1, f1) == ToEnvelope(j, m2, f2)
    ensures ToEnvelope(j, m1, f1).campaignId == j.fields["campaign_id"]
    ensures ToEnvelope(j, m1, f1).event == j.fields["event"]
    ensures ToEnvelope(j, m1, f1).data == (if "data" in j.fields then Some(j.fields["data"]) else None)
  {
  }

  /**
   * A bare payload becomes the envelope's data; the campaign id is the
   * filter's or 0; the event is the record's non-empty marker, else the
   * filter's event, else "".
   */
  lemma BareDefaults(j: Json, marker: string, f: Filter)
    requires !SelfDescribing(j)
    ensures ToEnvelope(j, marker, f).data == Some(j)
    ensures ToEnvelope(j, marker, f).campaignId == JNum(if f.campaignId.Some? then f.campaignId.value else 0)
    ensures ToEnvelope(j, marker, f).event
            == JStr(if marker != "" then marker else if f.event.Some? then Wire(f.event.value) else "")
  {
    if f.event.Some? {
      assert Wire(f.event.value) != "" by { match f.event.value { case _ => } }
    }
  }

  /** A bare payload never fails the campaign filter: it takes the filter's own campaign id. */
  lemma BareNeverFailsCampaignFilter(j: Json, marker: string, f: Filter)
    requires !SelfDescribing(j)
    ensures f.campaignId.None? || ToEnvelope(j, marker, f).campaignId == JNum(f.campaignId.value)
  {
    BareDefaults(j, marker, f);
  }

  /** A bare payload with no `event:` line and no event filter carries "", which no guard accepts. */
  lemma BareWithoutEventIsUnknown(j: Json, f: Filter, k: EventKind)
    requires !SelfDescribing(j) && f.event.None?
    ensures !IsEventOf(ToEnvelope(j, "", f), k)
  {
    assert Wire(k) != "" by { match k { case _ => } }
  }

  // ---------------------------------------------------------------------------
  // The lines of one chunk, as a specification
  // ---------------------------------------------------------------------------

  /**
   * The parser after some lines: the record under construction, the
   * envelopes handed to `onEvent`, and the raw data of records whose JSON did
   * not parse (those are only logged).
   */
  datatype Scan = Scan(rec: Record, emitted: seq<Envelope>, unparsed: seq<string>)

  /** One line of the `for (const line of lines)` loop. */
  function Step(s: Scan, line: string, f: Filter, parse: string -> Option<Json>): Scan
  {
    match Classify(line)
    case Blank =>
      if s.rec.data == "" then s.(rec := EmptyRecord)
      else (match parse(s.rec.data)
        case None => Scan(EmptyRecord, s.emitted, s.unparsed + [s.rec.data])
        case Some(j) =>
          var e := ToEnvelope(j, s.rec.marker, f);
          Scan(EmptyRecord, s.emitted + (if Passes(f, e) then [e] else []), s.unparsed))
    case NoColon => s
    case Field(name, value) => s.(rec := AddField(s.rec, name, value))
  }

  /** The loop over the complete lines of one chunk, starting from a fresh record. */
  function Process(lines: seq<string>, f: Filter, parse: string -> Option<Json>): Scan
  {
    if lines == [] then Scan(EmptyRecord, [], [])
    else Step(Process(lines[..|lines| - 1], f, parse), lines[|lines| - 1], f, parse)
  }

  /** Processing one more line is one more step. */
  lemma ProcessSnoc(lines: seq<string>, i: int, f: Filter, parse: string -> Option<Json>)
    requires 0 <= i < |lines|
    ensures Process(lines[..i + 1], f, parse) == Step(Process(lines[..i], f, parse), lines[i], f, parse)
  {
    assert lines[..i + 1][..i] == lines[..i];
  }

  /** A step only appends to what was emitted and logged, whatever came before. */
  lemma StepAppends(s: Scan, line: string, f: Filter, parse: string -> Option<Json>)
    ensures var later := Step(Scan(s.rec, [], []), line, f, parse);
      && Step(s, line, f, parse).rec == later.rec
      && Step(s, line, f, parse).emitted == s.emitted + later.emitted
      && Step(s, line, f, parse).unparsed == s.unparsed + later.unparsed
  {
  }

  /** The complete lines of the buffered text: everything the split yields but the last part. */
  function CompleteLines(text: string): seq<string>
  {
    var parts := Split(text, '\n');
    parts[..|parts| - 1]
  }

  /** The text kept in the buffer: what follows the last newline. */
  function Pending(text: string): string
  {
    var parts := Split(text, '\n');
    parts[|parts| - 1]
  }

  /**
   * The buffered text is exactly its complete lines, each with its newline,
   * followed by the pending text, which holds no newline.
   */
  lemma ChunkConservation(text: string)
    ensures text == Terminated(CompleteLines(text), '\n') + Pending(text)
    ensures '\n' !in Pending(text)
    ensures forall k :: 0 <= k < |CompleteLines(text)| ==> '\n' !in CompleteLines(text)[k]
  {
    var parts := Split(text, '\n');
    JoinSplit(text, '\n');
    JoinIsTerminatedPlusLast(parts, '\n');
  }

  /** Text after the last newline is kept pending and never processed as a line. */
  lemma UnterminatedTailPending(s: string, t: string)
    requires '\n' !in t
    ensures CompleteLines(s + "\n" + t) == Split(s, '\n')
    ensures Pending(s + "\n" + t) == t
  {
    var parts := Split(s, '\n');
    JoinSplit(s, '\n');
    JoinAppend(parts, t, '\n');
    SplitJoin(parts + [t], '\n');
    assert (parts + [t])[..|parts|] == parts;
  }

  /** A line that is not blank and has no colon changes nothing. */
  lemma NoColonLineIgnored(s: Scan, line: string, f: Filter, parse: string -> Option<Json>)
    requires !AllTrimmable(line) && ':' !in line
    ensures Step(s, line, f, parse) == s
  {
    TrimEmptyIff(line);
  }

  /** A non-blank line is split at its first colon, and both sides are trimmed. */
  lemma FieldSplitsAtFirstColon(name: string, value: string)
    requires ':' !in name
    requires !AllTrimmable(name + ":" + value)
    ensures Classify(name + ":" + value) == Field(Trim(name), Trim(value))
  {
    var line := name + ":" + value;
    TrimEmptyIff(line);
    IndexOfAfterFree(name, ':', value);
    assert line[..|name|] == name;
    assert line[|name| + 1..] == value;
  }

  /**
   * A whitespace-only line ends the record: the record is reset, nothing is
   * emitted for empty data, data that does not parse is only logged, and a
   * parsed record is emitted exactly when it passes the filter.
   */
  lemma BlankLineEndsRecord(s: Scan, line: string, f: Filter, parse: string -> Option<Json>)
    requires AllTrimmable(line)
    ensures Step(s, line, f, parse).rec == EmptyRecord
    ensures s.rec.data == "" || parse(s.rec.data).None? ==> Step(s, line, f, parse).emitted == s.emitted
    ensures s.rec.data != "" && parse(s.rec.data).None? ==>
              Step(s, line, f, parse).unparsed == s.unparsed + [s.rec.data]
    ensures s.rec.data != "" && parse(s.rec.data).Some? ==>
              var e := ToEnvelope(parse(s.rec.data).value, s.rec.marker, f);
              Step(s, line, f, parse).emitted == s.emitted + (if Passes(f, e) then [e] else [])
  {
    TrimEmptyIff(line);
  }

  /** A `name: value` line, as the backend writes it. */
  function FieldLine(name: string, v: string): string
  {
    name + ": " + v
  }

  /** A `data: v` line. */
  function DataLine(v: string): string
  {
    FieldLine("data", v)
  }

  /** One `data:` line per value, in order. */
  function DataLines(values: seq<string>): (lines: seq<string>)
    ensures |lines| == |values|
  {
    if values == [] then [] else DataLines(values[..|values| - 1]) + [DataLine(values[|values| - 1])]
  }

  /** A value with no whitespace at either end, so trimming keeps it whole. */
  predicate Untrimmed(v: string)
  {
    v != [] && !IsTrimmable(v[0]) && !IsTrimmable(v[|v| - 1])
  }

  /** Consecutive `data:` lines accumulate their values joined by newlines, and emit nothing. */
  lemma {:induction false} DataLinesJoin(values: seq<string>, f: Filter, parse: string -> Option<Json>)
    requires |values| >= 1
    requires forall k :: 0 <= k < |values| ==> Untrimmed(values[k])
    ensures Process(DataLines(values), f, parse).rec == Record("", Join(values, '\n'))
    ensures Process(DataLines(values), f, parse).emitted == []
    ensures Process(DataLines(values), f, parse).unparsed == []
  {
    var n := |values|;
    var init := values[..n - 1];
    var v := values[n - 1];
    var before := Process(DataLines(init), f, parse);
    assert Process(DataLines(values), f, parse) == before.(rec := AddField(before.rec, "data", v)) by {
      assert DataLines(values)[..n - 1] == DataLines(init);
      StepDataLine(before, v, f, parse);
    }
    if n == 1 {
      assert before == Scan(EmptyRecord, [], []) by {
        assert init == [];
      }
      assert Join(values, '\n') == v;
    } else {
      assert before == Scan(Record("", Join(init, '\n')), [], []) by {
        DataLinesJoin(init, f, parse);
      }
      assert Join(values, '\n') == Join(init, '\n') + "\n" + v by {
        JoinAppend(init, v, '\n');
        assert init + [v] == values;
      }
      assert Join(init, '\n') != "" by {
        JoinNonEmpty(init, '\n');
      }
    }
  }

  /** A `data:` line appends its value to the record and changes nothing else. */
  lemma StepDataLine(s: Scan, v: string, f: Filter, parse: string -> Option<Json>)
    requires Untrimmed(v)
    ensures Step(s, DataLine(v), f, parse) == s.(rec := AddField(s.rec, "data", v))
  {
    DataLineParses(v);
  }

  /** A `name: value` line is the field `name` with value `value`. */
  lemma FieldLineParses(name: string, v: string)
    requires Untrimmed(name) && ':' !in name && Untrimmed(v)
    ensures Classify(FieldLine(name, v)) == Field(name, v)
  {
    assert FieldLine(name, v) == name + ":" + (" " + v);
    NotAllTrimmable(FieldLine(name, v), 0);
    FieldSplitsAtFirstColon(name, " " + v);
    TrimKeeps(name);
    TrimAfterSpace(v);
  }

  /** A `data:` line is the field `data` with its value. */
  lemma DataLineParses(v: string)
    requires Untrimmed(v)
    ensures Classify(DataLine(v)) == Field("data", v)
  {
    FieldLineParses("data", v);
  }

  /** A string with a non-whitespace character is not all whitespace. */
  lemma NotAllTrimmable(s: string, i: int)
    requires 0 <= i < |s| && !IsTrimmable(s[i])
    ensures !AllTrimmable(s)
  {
  }

  /** The single space the backend writes after a colon is trimmed away. */
  lemma TrimAfterSpace(v: string)
    requires Untrimmed(v)
    ensures Trim(" " + v) == v
  {
    assert (" " + v)[1..] == v;
    assert TrimStart(" " + v) == TrimStart(v);
    TrimKeeps(v);
  }

  lemma {:induction false} JoinNonEmpty(parts: seq<string>, sep: char)
    requires |parts| >= 1 && parts[0] != []
    ensures Join(parts, sep) != []
  {
  }

  // ---------------------------------------------------------------------------
  // Framing, then decoding, then filtering
  // ---------------------------------------------------------------------------

  /** The framing of lines alone: the record being built and the records completed so far. */
  datatype Framing = Framing(current: Record, completed: seq<Record>)

  /** One line of framing: a blank line completes the current record if it has data. */
  function FrameStep(fr: Framing, line: string): Framing
  {
    match Classify(line)
    case Blank => Framing(EmptyRecord, fr.completed + (if fr.current.data != "" then [fr.current] else []))
    case NoColon => fr
    case Field(name, value) => fr.(current := AddField(fr.current, name, value))
  }

  /** Which records the lines complete, and the record left open after them. */
  function Frame(lines: seq<string>): Framing
  {
    if lines == [] then Framing(EmptyRecord, [])
    else FrameStep(Frame(lines[..|lines| - 1]), lines[|lines| - 1])
  }

  /** The envelope of one record, or nothing when its data does not parse. */
  function DecodeOne(r: Record, f: Filter, parse: string -> Option<Json>): seq<Envelope>
  {
    match parse(r.data)
    case None => []
    case Some(j) => [ToEnvelope(j, r.marker, f)]
  }

  /** The envelopes of the records whose data parses, in record order. */
  function Decoded(rs: seq<Record>, f: Filter, parse: string -> Option<Json>): seq<Envelope>
  {
    if rs == [] then []
    else Decoded(rs[..|rs| - 1], f, parse) + DecodeOne(rs[|rs| - 1], f, parse)
  }

  /** The raw data of the records whose JSON does not parse. */
  function Unparsable(rs: seq<Record>, parse: string -> Option<Json>): seq<string>
  {
    if rs == [] then []
    else
      var r := rs[|rs| - 1];
      Unparsable(rs[..|rs| - 1], parse) + (if parse(r.data).None? then [r.data] else [])
  }

  /** The envelopes that pass the filter, in order. */
  function Gate(f: Filter, es: seq<Envelope>): seq<Envelope>
  {
    if es == [] then []
    else Gate(f, es[..|es| - 1]) + (if Passes(f, es[|es| - 1]) then [es[|es| - 1]] else [])
  }

  lemma {:induction false} GateAppend(f: Filter, a: seq<Envelope>, b: seq<Envelope>)
    ensures Gate(f, a + b) == Gate(f, a) + Gate(f, b)
    decreases |b|
  {
    if b == [] {
      assert a + b == a;
    } else {
      GateAppend(f, a, b[..|b| - 1]);
      assert (a + b)[..|a + b| - 1] == a + b[..|b| - 1];
    }
  }

  /** With no filter, every envelope passes. */
  lemma {:induction false} GateNoFilter(es: seq<Envelope>)
    ensures Gate(NoFilter, es) == es
  {
    if es != [] {
      GateNoFilter(es[..|es| - 1]);
    }
  }

  /** What the parser state is once the framing is known: decode, log and filter the completed records. */
  function Observed(fr: Framing, f: Filter, parse: string -> Option<Json>): Scan
  {
    Scan(fr.current, Gate(f, Decoded(fr.completed, f, parse)), Unparsable(fr.completed, parse))
  }

  /** One parser step is one framing step seen through `Observed`. */
  lemma StepIsFrameStep(fr: Framing, line: string, f: Filter, parse: string -> Option<Json>)
    ensures Step(Observed(fr, f, parse), line, f, parse) == Observed(FrameStep(fr, line), f, parse)
  {
    match Classify(line)
    case Blank =>
      if fr.current.data != "" {
        var rs := fr.completed + [fr.current];
        assert rs[..|rs| - 1] == fr.completed;
        var one := DecodeOne(fr.current, f, parse);
        GateAppend(f, Decoded(fr.completed, f, parse), one);
        if one != [] {
          assert one[..0] == [];
        }
      } else {
        assert fr.completed + [] == fr.completed;
      }
    case NoColon =>
    case Field(name, value) =>
  }

  /**
   * The chunk loop is framing, then decoding, then filtering: the envelopes
   * handed to `onEvent` are the decoded completed records that pass the
   * filter, in line order, and the logged ones are the completed records
   * whose JSON does not parse.
   */
  lemma {:induction false} ProcessIsFramedThenDecoded(lines: seq<string>, f: Filter, parse: string -> Option<Json>)
    ensures Process(lines, f, parse) == Observed(Frame(lines), f, parse)
  {
    if lines != [] {
      var init := lines[..|lines| - 1];
      ProcessIsFramedThenDecoded(init, f, parse);
      StepIsFrameStep(Frame(init), lines[|lines| - 1], f, parse);
    }
  }

  /** With no filter, every decoded record reaches `onEvent`, exactly once and in line order. */
  lemma NoFilterDeliversEveryRecord(lines: seq<string>, parse: string -> Option<Json>)
    ensures Process(lines, NoFilter, parse).emitted == Decoded(Frame(lines).completed, NoFilter, parse)
  {
    ProcessIsFramedThenDecoded(lines, NoFilter, parse);
    GateNoFilter(Decoded(Frame(lines).completed, NoFilter, parse));
  }

  /** Every record either fails to parse or parses to a self-describing object. */
  predicate AllSelfDescribing(rs: seq<Record>, parse: string -> Option<Json>)
  {
    forall k :: 0 <= k < |rs| ==> parse(rs[k].data).None? || SelfDescribing(parse(rs[k].data).value)
  }

  lemma {:induction false} DecodedIgnoresFilter(rs: seq<Record>, f: Filter, parse: string -> Option<Json>)
    requires AllSelfDescribing(rs, parse)
    ensures Decoded(rs, f, parse) == Decoded(rs, NoFilter, parse)
  {
    if rs != [] {
      DecodedIgnoresFilter(rs[..|rs| - 1], f, parse);
      var r := rs[|rs| - 1];
      if parse(r.data).Some? {
        SelfDescribingIgnoresMarker(parse(r.data).value, r.marker, r.marker, f, NoFilter);
      }
    }
  }

  /**
   * When every payload is self-describing, filtering in the client is the
   * same as receiving everything and discarding non-matching envelopes.
   */
  lemma SelfDescribingFilterIsDownstream(lines: seq<string>, f: Filter, parse: string -> Option<Json>)
    requires AllSelfDescribing(Frame(lines).completed, parse)
    ensures Process(lines, f, parse).emitted == Gate(f, Process(lines, NoFilter, parse).emitted)
  {
    ProcessIsFramedThenDecoded(lines, f, parse);
    NoFilterDeliversEveryRecord(lines, parse);
    DecodedIgnoresFilter(Frame(lines).completed, f, parse);
  }

  /**
   * A record of `data:` lines closed by an empty line delivers the parsed
   * join of its values, when it passes the filter, and nothing else.
   */
  lemma OneRecord(values: seq<string>, f: Filter, parse: string -> Option<Json>)
    requires |values| >= 1
    requires forall k :: 0 <= k < |values| ==> Untrimmed(values[k])
    ensures var data := Join(values, '\n');
      Process(DataLines(values) + [""], f, parse).emitted
        == (match parse(data)
            case None => []
            case Some(j) => if Passes(f, ToEnvelope(j, "", f)) then [ToEnvelope(j, "", f)] else [])
  {
    var lines := DataLines(values) + [""];
    DataLinesJoin(values, f, parse);
    ProcessSnoc(lines, |values|, f, parse);
    assert lines[..|values|] == DataLines(values);
    BlankLineEndsRecord(Process(DataLines(values), f, parse), "", f, parse);
    JoinNonEmpty(values, '\n');
  }

  /**
   * For a bare payload filtering is not downstream: the filter supplies the
   * campaign id, so a bare record under a campaign filter for `c` is
   * delivered as campaign `c`, while without a filter it arrives as campaign
   * 0 and a downstream filter for `c` drops it.
   */
  lemma BareFilterIsNotDownstream(parse: string -> Option<Json>, v: string, j: Json, c: int)
    requires Untrimmed(v) && parse(v) == Some(j) && !SelfDescribing(j) && c != 0
    ensures var lines := [DataLine(v), ""];
      var f := Filter(Some(c), None);
      && Process(lines, f, parse).emitted == [Envelope(JNum(c), JStr(""), Some(j))]
      && Gate(f, Process(lines, NoFilter, parse).emitted) == []
  {
    var lines := [DataLine(v), ""];
    var f := Filter(Some(c), None);
    var e := Envelope(JNum(c), JStr(""), Some(j));
    var e0 := Envelope(JNum(0), JStr(""), Some(j));
    assert DataLines([v]) + [""] == lines by {
      assert [v][..0] == [];
    }
    assert Join([v], '\n') == v;
    assert Process(lines, f, parse).emitted == [e] by {
      OneRecord([v], f, parse);
      BareDefaults(j, "", f);
    }
    assert Process(lines, NoFilter, parse).emitted == [e0] by {
      OneRecord([v], NoFilter, parse);
      BareDefaults(j, "", NoFilter);
    }
    assert Gate(f, [e0]) == [] by {
      assert [e0][..0] == [];
    }
  }

  // ---------------------------------------------------------------------------
  // A stream of chunks
  // ---------------------------------------------------------------------------

  /** The buffer, the envelopes delivered and the raw data logged as unparsable after a sequence of chunk reads. */
  datatype Feed = Feed(pending: string, emitted: seq<Envelope>, unparsed: seq<string>)

  /**
   * Chunk after chunk: each chunk's complete lines are processed with a fresh
   * record, so a record is delivered only when its lines and its blank line
   * arrive in the same chunk's complete lines.
   */
  function FeedFrom(start: string, chunks: seq<string>, f: Filter, parse: string -> Option<Json>): Feed
  {
    if chunks == [] then Feed(start, [], [])
    else
      var fd := FeedFrom(start, chunks[..|chunks| - 1], f, parse);
      var text := fd.pending + chunks[|chunks| - 1];
      var scan := Process(CompleteLines(text), f, parse);
      Feed(Pending(text), fd.emitted + scan.emitted, fd.unparsed + scan.unparsed)
  }

  /** Newline-terminated lines followed by unterminated text frame back into those lines and that text. */
  lemma FramingExact(lines: seq<string>, rest: string)
    requires forall k :: 0 <= k < |lines| ==> '\n' !in lines[k]
    requires '\n' !in rest
    ensures CompleteLines(Terminated(lines, '\n') + rest) == lines
    ensures Pending(Terminated(lines, '\n') + rest) == rest
  {
    var parts := lines + [rest];
    JoinIsTerminatedPlusLast(parts, '\n');
    assert parts[..|lines|] == lines;
    SplitJoin(parts, '\n');
  }

  /** Feeding one more chunk processes the complete lines of the pending text and that chunk. */
  lemma FeedFromSnoc(start: string, chunks: seq<string>, i: int, f: Filter, parse: string -> Option<Json>)
    requires 0 <= i < |chunks|
    ensures var fd := FeedFrom(start, chunks[..i], f, parse);
      var text := fd.pending + chunks[i];
      var scan := Process(CompleteLines(text), f, parse);
      FeedFrom(start, chunks[..i + 1], f, parse)
        == Feed(Pending(text), fd.emitted + scan.emitted, fd.unparsed + scan.unparsed)
  {
    assert chunks[..i + 1][..i] == chunks[..i];
  }

  /** A `data:` line holds no newline when its value holds none. */
  lemma DataLineSingle(v: string)
    requires '\n' !in v
    ensures '\n' !in DataLine(v)
  {
    assert DataLine(v) == "data: " + v;
  }

  /** The chunk `data: v` with its newline leaves nothing pending and delivers nothing yet. */
  lemma DataChunkDeliversNothing(parse: string -> Option<Json>, v: string, f: Filter)
    requires Untrimmed(v) && '\n' !in v
    ensures FeedFrom("", [DataLine(v) + "\n"], f, parse).pending == ""
    ensures FeedFrom("", [DataLine(v) + "\n"], f, parse).emitted == []
  {
    var line := DataLine(v);
    var c1 := line + "\n";
    assert CompleteLines("" + c1) == [line] && Pending("" + c1) == "" by {
      DataLineSingle(v);
      assert [line][..0] == [];
      assert "" + c1 == Terminated([line], '\n') + "";
      FramingExact([line], "");
    }
    assert Process([line], f, parse).emitted == [] by {
      assert DataLines([v]) == [line] by {
        assert [v][..0] == [];
      }
      DataLinesJoin([v], f, parse);
    }
    assert [c1][..0] == [];
  }

  /** A chunk holding only a newline, on an empty buffer, is one blank line that closes an empty record. */
  lemma BlankChunkDeliversNothing(parse: string -> Option<Json>, f: Filter)
    ensures CompleteLines("" + "\n") == [""] && Pending("" + "\n") == ""
    ensures Process([""], f, parse).emitted == []
  {
    assert [""][..0] == [];
    assert "" + "\n" == Terminated([""], '\n') + "";
    FramingExact([""], "");
    ProcessSnoc([""], 0, f, parse);
    BlankLineEndsRecord(Process([], f, parse), "", f, parse);
  }

  /**
   * A record whose blank line arrives in a later chunk is lost: the chunk
   * `data: v` with its newline, then a chunk holding only a newline, deliver
   * nothing, under any filter.
   */
  lemma RecordSplitAcrossChunksIsLost(parse: string -> Option<Json>, v: string, f: Filter)
    requires Untrimmed(v) && '\n' !in v
    ensures FeedFrom("", [DataLine(v) + "\n", "\n"], f, parse).emitted == []
  {
    var c1 := DataLine(v) + "\n";
    DataChunkDeliversNothing(parse, v, f);
    BlankChunkDeliversNothing(parse, f);
    var two := [c1, "\n"];
    assert two[..1] == [c1];
  }

  /** The same bytes in one chunk deliver the record. */
  lemma RecordInOneChunkIsDelivered(parse: string -> Option<Json>, v: string, j: Json)
    requires Untrimmed(v) && '\n' !in v && parse(v) == Some(j)
    ensures FeedFrom("", [DataLine(v) + "\n\n"], NoFilter, parse).emitted == [ToEnvelope(j, "", NoFilter)]
  {
    var line := DataLine(v);
    var c := line + "\n\n";
    var e := ToEnvelope(j, "", NoFilter);
    assert CompleteLines("" + c) == [line, ""] by {
      DataLineSingle(v);
      assert [line, ""][..1] == [line];
      assert [line][..0] == [];
      assert Terminated([line], '\n') == line + "\n";
      assert Terminated([line, ""], '\n') == Terminated([line], '\n') + "" + "\n";
      assert "" + c == Terminated([line, ""], '\n') + "";
      FramingExact([line, ""], "");
    }
    assert Process([line, ""], NoFilter, parse).emitted == [e] by {
      assert DataLines([v]) + [""] == [line, ""] by {
        assert [v][..0] == [];
      }
      assert Join([v], '\n') == v;
      OneRecord([v], NoFilter, parse);
    }
    assert FeedFrom("", [c], NoFilter, parse).emitted == [] + [e] by {
      assert [c][..0] == [];
    }
  }

  /** Every event name is a plain word with no whitespace at its ends. */
  lemma WireIsPlain(k: EventKind)
    ensures Untrimmed(Wire(k))
  {
    match k
    case StartCampaign =>
    case QueriesGenerated =>
    case NewContact =>
    case SendingMessage =>
    case PausedCampaign =>
    case ResumedCampaign =>
    case CompletedCampaign =>
  }

  /** No event name holds a colon, so an `event:` line splits at its own colon. */
  lemma WireHasNoColon(k: EventKind)
    ensures ':' !in Wire(k)
  {
    match k
    case StartCampaign =>
    case QueriesGenerated =>
    case NewContact =>
    case SendingMessage =>
    case PausedCampaign =>
    case ResumedCampaign =>
    case CompletedCampaign =>
  }

  /** No event name holds an ampersand, so a query pair never splits inside it. */
  lemma WireHasNoAmpersand(k: EventKind)
    ensures '&' !in Wire(k)
  {
    match k
    case StartCampaign =>
    case QueriesGenerated =>
    case NewContact =>
    case SendingMessage =>
    case PausedCampaign =>
    case ResumedCampaign =>
    case CompletedCampaign =>
  }

  /** An `event:` line naming a kind is the field `event` with that kind's name. */
  lemma EventLineParses(k: EventKind)
    ensures Classify(FieldLine("event", Wire(k))) == Field("event", Wire(k))
  {
    WireIsPlain(k);
    WireHasNoColon(k);
    FieldLineParses("event", Wire(k));
  }

  /**
   * The worked example, for any event kind: an `event:` line, a bare JSON
   * payload on a data line and an empty line, under an event filter for that
   * kind, deliver exactly one envelope, with campaign id 0 since no campaign
   * filter is set.
   */
  lemma EventFilteredBareRecord(parse: string -> Option<Json>, k: EventKind, payload: string, j: Json)
    requires Untrimmed(payload) && parse(payload) == Some(j) && !SelfDescribing(j)
    ensures var lines := [FieldLine("event", Wire(k)), DataLine(payload), ""];
      Process(lines, Filter(None, Some(k)), parse).emitted == [Envelope(JNum(0), JStr(Wire(k)), Some(j))]
  {
    var f := Filter(None, Some(k));
    var lines := [FieldLine("event", Wire(k)), DataLine(payload), ""];
    var s1 := Scan(Record(Wire(k), ""), [], []);
    var s2 := Scan(Record(Wire(k), payload), [], []);
    var e := Envelope(JNum(0), JStr(Wire(k)), Some(j));
    assert Process(lines[..1], f, parse) == s1 by {
      ProcessSnoc(lines, 0, f, parse);
      assert lines[..0] == [];
      EventLineParses(k);
    }
    assert Process(lines[..2], f, parse) == s2 by {
      ProcessSnoc(lines, 1, f, parse);
      DataLineParses(payload);
    }
    assert ToEnvelope(j, Wire(k), f) == e by {
      BareDefaults(j, Wire(k), f);
    }
    assert Process(lines, f, parse).emitted == [e] by {
      ProcessSnoc(lines, 2, f, parse);
      assert lines[..3] == lines;
      BlankLineEndsRecord(s2, "", f, parse);
    }
  }

  // ---------------------------------------------------------------------------
  // The connection
  // ---------------------------------------------------------------------------

  /** How the read loop ended: the server closed the stream, the caller closed it, or an error. */
  datatype Outcome = Ended | Cancelled | Failed(message: string)

  datatype Phase = Connecting | Reading | Finished(outcome: Outcome)

  /** A thrown JavaScript `Error`: its `name` and `message`. */
  datatype JsError = JsError(name: string, message: string)

  /** What the awaited `fetch` produced. */
  datatype FetchResult = Response(status: int, hasBody: bool) | Rejected(error: JsError)

  /** What one awaited `reader.read()` produced, with the chunk already decoded to text. */
  datatype ReadResult = Chunk(text: string) | Done | ReadFailed(error: JsError)

  /** The message of the error `startStream` throws for a non-ok status. */
  function StatusMessage(status: int): string
  {
    "HTTP error! status: " + IntToString(status)
  }

  /**
   * One call of `monitorEvents`: the handle's `isActive` flag, the abort
   * controller (as `aborted`), the read loop's buffer, and the calls made to
   * `onEvent` (`delivered`), to `onError` (`reported`) and to `console.error`
   * (`unparsed` for bad JSON, `logged` for stream errors).
   */
  class Connection {
    const url: string
    const filter: Filter
    const parse: string -> Option<Json>
    const hasOnError: bool
    var active: bool
    var aborted: bool
    var phase: Phase
    var buffer: string
    var delivered: seq<Envelope>
    var unparsed: seq<string>
    var reported: seq<string>
    var logged: seq<string>

    ghost predicate Valid()
      reads this
    {
      && '\n' !in buffer
      && (phase.Finished? ==> !active)
      && (phase != Reading ==> buffer == "")
    }

    /** `monitorEvents(params, onEvent, onError, filterOptions)` before its first await. */
    constructor (params: MonitorParams, hasOnError: bool, filter: Filter, parse: string -> Option<Json>)
      ensures Valid()
      ensures url == MonitorUrl(params) && this.filter == filter && this.parse == parse
      ensures this.hasOnError == hasOnError
      ensures active && !aborted && phase == Connecting && buffer == ""
      ensures delivered == [] && unparsed == [] && reported == [] && logged == []
    {
      url := MonitorUrl(params);
      this.filter := filter;
      this.parse := parse;
      this.hasOnError := hasOnError;
      active := true;
      aborted := false;
      phase := Connecting;
      buffer := "";
      delivered, unparsed, reported, logged := [], [], [], [];
    }

    /**
     * The `catch` and `finally` of `startStream`: an `AbortError` ends
     * silently; any other error goes to `onError` once, or to the console
     * when there is no `onError`; the flag goes down in every case.
     */
    method Fail(err: JsError)
      modifies this
      ensures !active && buffer == ""
      ensures err.name == "AbortError" ==> phase == Finished(Cancelled) && reported == old(reported) && logged == old(logged)
      ensures err.name != "AbortError" ==> phase == Finished(Failed(err.message))
      ensures err.name != "AbortError" && hasOnError ==> reported == old(reported) + [err.message] && logged == old(logged)
      ensures err.name != "AbortError" && !hasOnError ==> reported == old(reported) && logged == old(logged) + [err.message]
      ensures aborted == old(aborted) && delivered == old(delivered) && unparsed == old(unparsed)
    {
      if err.name == "AbortError" {
        phase := Finished(Cancelled);
      } else {
        if hasOnError {
          reported := reported + [err.message];
        } else {
          logged := logged + [err.message];
        }
        phase := Finished(Failed(err.message));
      }
      buffer := "";
      active := false;
    }

    /**
     * The awaited `fetch` and the two checks before any read: a status outside
     * 200-299 or a missing body is an error; a fetch aborted by `close()`
     * ends silently.
     */
    method Connect(r: FetchResult)
      requires Valid() && phase == Connecting
      modifies this
      ensures Valid()
      ensures !old(active) ==> phase == Finished(Cancelled) && reported == old(reported) && logged == old(logged)
      ensures old(active) && r.Response? && !(200 <= r.status <= 299) ==>
                phase == Finished(Failed(StatusMessage(r.status)))
      ensures old(active) && r.Response? && 200 <= r.status <= 299 && !r.hasBody ==>
                phase == Finished(Failed("Response body is null"))
      ensures old(active) && r.Response? && 200 <= r.status <= 299 && r.hasBody ==>
                phase == Reading && active && reported == old(reported) && logged == old(logged)
      ensures old(active) && r.Rejected? ==>
                phase == Finished(if r.error.name == "AbortError" then Cancelled else Failed(r.error.message))
      ensures phase.Finished? && phase.outcome.Failed? ==>
                (if hasOnError then reported == old(reported) + [phase.outcome.message] && logged == old(logged)
                 else logged == old(logged) + [phase.outcome.message] && reported == old(reported))
      ensures delivered == old(delivered) && unparsed == old(unparsed) && buffer == ""
    {
      if !active {
        Fail(JsError("AbortError", "The operation was aborted."));
      } else if r.Rejected? {
        Fail(r.error);
      } else if !(200 <= r.status <= 299) {
        Fail(JsError("Error", StatusMessage(r.status)));
      } else if !r.hasBody {
        Fail(JsError("Error", "Response body is null"));
      } else {
        phase := Reading;
      }
    }

    /**
     * The body of the read loop for one decoded chunk: append it to the
     * buffer, keep the text after the last newline, and run the lines before
     * it through the parser with a fresh record. The flag is not consulted, so
     * a `close()` made from `onEvent` lets the rest of the chunk through.
     */
    method FeedChunk(chunk: string) returns (emitted: seq<Envelope>)
      requires Valid() && phase == Reading
      modifies this
      ensures Valid()
      ensures var text := old(buffer) + chunk;
        && buffer == Pending(text)
        && emitted == Process(CompleteLines(text), filter, parse).emitted
        && unparsed == old(unparsed) + Process(CompleteLines(text), filter, parse).unparsed
      ensures delivered == old(delivered) + emitted
      ensures active == old(active) && aborted == old(aborted) && phase == old(phase)
      ensures reported == old(reported) && logged == old(logged)
    {
      var text := buffer + chunk;
      var parts := Split(text, '\n');
      buffer := parts[|parts| - 1];
      var lines := parts[..|parts| - 1];

      var currentEvent := "";
      var eventData := "";
      emitted := [];
      ghost var delivered0, unparsed0 := delivered, unparsed;
      ghost var scan := Scan(EmptyRecord, [], []);
      var i := 0;
      while i < |lines|
        invariant 0 <= i <= |lines|
        invariant scan == Process(lines[..i], filter, parse)
        invariant scan.rec == Record(currentEvent, eventData) && scan.emitted == emitted
        invariant unparsed == unparsed0 + scan.unparsed && delivered == delivered0 + emitted
        invariant buffer == parts[|parts| - 1]
        invariant active == old(active) && aborted == old(aborted) && phase == old(phase)
        invariant reported == old(reported) && logged == old(logged)
      {
        ProcessSnoc(lines, i, filter, parse);
        StepAppends(scan, lines[i], filter, parse);
        ghost var later := Step(Scan(scan.rec, [], []), lines[i], filter, parse);
        var sent;
        currentEvent, eventData, sent := HandleLine(lines[i], currentEvent, eventData);
        Lists.AppendAssoc(unparsed0, scan.unparsed, later.unparsed);
        Lists.AppendAssoc(delivered0, emitted, sent);
        emitted := emitted + sent;
        scan := Step(scan, lines[i], filter, parse);
        i := i + 1;
      }
      assert lines[..i] == lines;
    }

    /**
     * The body of `for (const line of lines)`: a blank line ends the record
     * (decode, then deliver or log, then reset), a line with a colon sets a
     * field, anything else is skipped.
     */
    method HandleLine(line: string, currentEvent: string, eventData: string)
      returns (nextEvent: string, nextData: string, sent: seq<Envelope>)
      modifies this
      ensures var after := Step(Scan(Record(currentEvent, eventData), [], []), line, filter, parse);
        && after.rec == Record(nextEvent, nextData)
        && sent == after.emitted
        && unparsed == old(unparsed) + after.unparsed
      ensures delivered == old(delivered) + sent
      ensures buffer == old(buffer) && active == old(active) && aborted == old(aborted) && phase == old(phase)
      ensures reported == old(reported) && logged == old(logged)
    {
      nextEvent, nextData, sent := currentEvent, eventData, [];
      ghost var rec := Record(currentEvent, eventData);
      assert unparsed + [] == unparsed && delivered + [] == delivered;
      if Trim(line) == "" {
        assert Classify(line) == Blank;
        if eventData != "" {
          match parse(eventData)
          case None =>
            unparsed := unparsed + [eventData];
          case Some(parsedData) =>
            var event := ToEnvelope(parsedData, currentEvent, filter);
            if Passes(filter, event) {
              delivered := delivered + [event];
              sent := [event];
            }
        }
        nextEvent := "";
        nextData := "";
      } else {
        var colonIndex := IndexOf(line, ':');
        if colonIndex.Some? {
          var field := Trim(line[..colonIndex.value]);
          var value := Trim(line[colonIndex.value + 1..]);
          ClassifyField(line, colonIndex.value);
          assert AddField(rec, field, value) == Record(
            if field == "event" then value else currentEvent,
            if field == "data" && field != "event" then eventData + (if eventData != "" then "\n" else "") + value else eventData);
          if field == "event" {
            nextEvent := value;
          } else if field == "data" {
            nextData := eventData + (if eventData != "" then "\n" else "") + value;
          }
        }
      }
    }

    /**
     * One turn of `while (isActive)`: the flag is tested before the read; a
     * chunk is processed, the end of the stream drops the buffer and any
     * partial record, and a failed read goes through `Fail`.
     */
    method Read(r: ReadResult) returns (emitted: seq<Envelope>)
      requires Valid() && phase != Connecting
      modifies this
      ensures Valid()
      ensures old(phase).Finished? ==>
                emitted == [] && phase == old(phase) && active == old(active) && buffer == old(buffer)
                && delivered == old(delivered) && unparsed == old(unparsed)
                && reported == old(reported) && logged == old(logged)
      ensures old(phase) == Reading && !old(active) ==>
                emitted == [] && phase == Finished(Cancelled) && buffer == ""
                && delivered == old(delivered) && unparsed == old(unparsed)
                && reported == old(reported) && logged == old(logged)
      ensures old(phase) == Reading && old(active) && r.Done? ==>
                emitted == [] && phase == Finished(Ended) && buffer == ""
                && delivered == old(delivered) && unparsed == old(unparsed)
                && reported == old(reported) && logged == old(logged)
      ensures old(phase) == Reading && old(active) && r.Chunk? ==>
                var text := old(buffer) + r.text;
                && phase == Reading && active
                && buffer == Pending(text)
                && emitted == Process(CompleteLines(text), filter, parse).emitted
                && delivered == old(delivered) + emitted
                && unparsed == old(unparsed) + Process(CompleteLines(text), filter, parse).unparsed
                && reported == old(reported) && logged == old(logged)
      ensures old(phase) == Reading && old(active) && r.ReadFailed? ==>
                emitted == [] && buffer == "" && delivered == old(delivered) && unparsed == old(unparsed)
                && phase == Finished(if r.error.name == "AbortError" then Cancelled else Failed(r.error.message))
      ensures old(phase) == Reading && old(active) && r.ReadFailed? && r.error.name == "AbortError" ==>
                reported == old(reported) && logged == old(logged)
      ensures old(phase) == Reading && old(active) && r.ReadFailed? && r.error.name != "AbortError" ==>
                (if hasOnError then reported == old(reported) + [r.error.message] && logged == old(logged)
                 else logged == old(logged) + [r.error.message] && reported == old(reported))
      ensures phase.Finished? ==> !active
      ensures aborted == old(aborted)
    {
      emitted := [];
      if phase.Finished? {
        return;
      }
      if !active {
        // the loop guard fails: leave the loop normally, then `finally`
        phase := Finished(Cancelled);
        buffer := "";
        return;
      }
      match r
      case Done =>
        phase := Finished(Ended);
        buffer := "";
        active := false;
      case Chunk(text) =>
        emitted := FeedChunk(text);
      case ReadFailed(err) =>
        Fail(err);
    }

    /**
     * The read loop fed chunk after chunk with nobody closing the handle:
     * what it delivers is `FeedFrom` of the buffer it started with.
     */
    method ReadChunks(chunks: seq<string>) returns (emitted: seq<Envelope>)
      requires Valid() && phase == Reading && active
      modifies this
      ensures Valid() && phase == Reading && active
      ensures emitted == FeedFrom(old(buffer), chunks, filter, parse).emitted
      ensures buffer == FeedFrom(old(buffer), chunks, filter, parse).pending
      ensures delivered == old(delivered) + emitted
      ensures unparsed == old(unparsed) + FeedFrom(old(buffer), chunks, filter, parse).unparsed
      ensures reported == old(reported) && logged == old(logged) && aborted == old(aborted)
    {
      emitted := [];
      var i := 0;
      while i < |chunks|
        invariant 0 <= i <= |chunks|
        invariant Valid() && phase == Reading && active
        invariant emitted == FeedFrom(old(buffer), chunks[..i], filter, parse).emitted
        invariant buffer == FeedFrom(old(buffer), chunks[..i], filter, parse).pending
        invariant delivered == old(delivered) + emitted
        invariant unparsed == old(unparsed) + FeedFrom(old(buffer), chunks[..i], filter, parse).unparsed
        invariant reported == old(reported) && logged == old(logged) && aborted == old(aborted)
      {
        FeedFromSnoc(old(buffer), chunks, i, filter, parse);
        ghost var before := FeedFrom(old(buffer), chunks[..i], filter, parse);
        var more := Read(Chunk(chunks[i]));
        Lists.AppendAssoc(old(delivered), emitted, more);
        Lists.AppendAssoc(old(unparsed), before.unparsed, Process(CompleteLines(before.pending + chunks[i]), filter, parse).unparsed);
        emitted := emitted + more;
        i := i + 1;
      }
      assert chunks[..i] == chunks;
    }

    /**
     * `close()`: the flag goes down and the controller aborts. Calling it
     * again changes nothing more; the buffer and callbacks are untouched here
     * (the loop notices at its next test or through the aborted read).
     */
    method Close()
      requires Valid()
      modifies this
      ensures Valid()
      ensures !active && aborted
      ensures phase == old(phase) && buffer == old(buffer)
      ensures delivered == old(delivered) && unparsed == old(unparsed)
      ensures reported == old(reported) && logged == old(logged)
    {
      active := false;
      aborted := true;
    }
  }
}
