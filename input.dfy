/**
 * The mapping between a keyed log record (one row of a log file, by column
 * name) and the attributes of an Event.
 */
module Input {
  import opened Wrappers
  import opened Events

  /** One cell of a log record: a text, an instant in seconds, or a missing value. */
  datatype Cell = Text(text: string) | Instant(at: int) | Null

  /**
   * The names of the record columns holding each event attribute. The resource
   * and enablement columns are optional.
   */
  datatype Mapping = Mapping(
    start: string,
    end: string,
    caseId: string,
    activity: string,
    resource: Option<string>,
    enablement: Option<string>)

  /** Why a record could not be turned into an event. */
  datatype MappingError =
    | MissingKey(column: string)  // a column the mapping names is absent from the record
    | IllTyped(column: string)    // a column holds a cell of the wrong kind for its attribute

  /** The mapping the CSV reader uses unless told otherwise. */
  const DEFAULT_CSV_MAPPING: Mapping :=
    Mapping("start", "end", "case", "activity", Some("resource"), Some("enabled"))

  /**
   * The columns a mapping reads, in the order the record is consulted: case,
   * activity, start, end, then resource and enablement when they are named.
   */
  function Columns(m: Mapping): (cols: seq<string>)
    ensures |cols| == 4 + (if m.resource.Some? then 1 else 0) + (if m.enablement.Some? then 1 else 0)
    ensures cols[..4] == [m.caseId, m.activity, m.start, m.end]
    ensures m.resource.Some? ==> cols[4] == m.resource.value
    ensures m.enablement.Some? ==> cols[|cols| - 1] == m.enablement.value
    ensures m.caseId in cols && m.activity in cols && m.start in cols && m.end in cols
    ensures m.resource.Some? ==> m.resource.value in cols
    ensures m.enablement.Some? ==> m.enablement.value in cols
  {
    [m.caseId, m.activity, m.start, m.end]
    + (if m.resource.Some? then [m.resource.value] else [])
    + (if m.enablement.Some? then [m.enablement.value] else [])
  }

  /** The first of `keys` that the record lacks, if any. */
  function FirstMissing(keys: seq<string>, source: map<string, Cell>): (r: Option<string>)
    ensures r.None? <==> forall k :: k in keys ==> k in source
    ensures r.Some? ==> exists i :: 0 <= i < |keys| && keys[i] == r.value && r.value !in source
                                    && forall j :: 0 <= j < i ==> keys[j] in source
  {
    if keys == [] then None
    else if keys[0] !in source then Some(keys[0])
    else
      var r := FirstMissing(keys[1..], source);
      if r.Some? then
        ghost var i :| 0 <= i < |keys[1..]| && keys[1..][i] == r.value && r.value !in source
                       && forall j :: 0 <= j < i ==> keys[1..][j] in source;
        assert keys[i + 1] == r.value;
        r
      else
        assert forall k :: k in keys ==> k == keys[0] || k in keys[1..];
        r
  }

  /** The text of an optional text attribute as a cell: missing is Null. */
  function TextCell(v: Option<string>): Cell {
    if v.Some? then Text(v.value) else Null
  }

  /** The instant of an optional time attribute as a cell: missing is Null. */
  function InstantCell(v: Option<int>): Cell {
    if v.Some? then Instant(v.value) else Null
  }

  /**
   * Event `e` is what mapping `m` reads from the record: every column the
   * mapping names is present; case, activity, start and end are copied from
   * their columns; resource and enablement time are copied from their columns
   * when the mapping names one (a Null cell giving no value) and are absent
   * when it does not.
   */
  ghost predicate Projects(m: Mapping, source: map<string, Cell>, e: Event) {
    && (forall k :: k in Columns(m) ==> k in source)
    && source[m.caseId] == Text(e.caseId)
    && source[m.activity] == Text(e.activity)
    && source[m.start] == Instant(e.start)
    && source[m.end] == Instant(e.end)
    && (if m.resource.None? then e.resource.None? else source[m.resource.value] == TextCell(e.resource))
    && (if m.enablement.None? then e.enabled.None? else source[m.enablement.value] == InstantCell(e.enabled))
  }

  /** Reads a required text attribute from a present column. */
  function ReadText(source: map<string, Cell>, column: string): Result<string, MappingError>
    requires column in source
  {
    if source[column].Text? then Success(source[column].text) else Failure(IllTyped(column))
  }

  /** Reads a required time attribute from a present column. */
  function ReadInstant(source: map<string, Cell>, column: string): Result<int, MappingError>
    requires column in source
  {
    if source[column].Instant? then Success(source[column].at) else Failure(IllTyped(column))
  }

  /** Reads an optional text attribute: absent when no column is named or the cell is Null. */
  function ReadOptionalText(source: map<string, Cell>, column: Option<string>): Result<Option<string>, MappingError>
    requires column.Some? ==> column.value in source
  {
    if column.None? then Success(None)
    else match source[column.value]
      case Text(t) => Success(Some(t))
      case Null => Success(None)
      case Instant(_) => Failure(IllTyped(column.value))
  }

  /** Reads an optional time attribute: absent when no column is named or the cell is Null. */
  function ReadOptionalInstant(source: map<string, Cell>, column: Option<string>): Result<Option<int>, MappingError>
    requires column.Some? ==> column.value in source
  {
    if column.None? then Success(None)
    else match source[column.value]
      case Instant(t) => Success(Some(t))
      case Null => Success(None)
      case Text(_) => Failure(IllTyped(column.value))
  }

  /**
   * The event the mapping reads from a record. A column the mapping names but
   * the record lacks is an error naming the first such column in reading
   * order; a cell of the wrong kind is an error naming its column.
   */
  function DictToEvent(m: Mapping, source: map<string, Cell>): (r: Result<Event, MappingError>)
    ensures r.Success? ==> Projects(m, source, r.value)
    ensures (forall k :: k in Columns(m) ==> k in source) <==> !(r.Failure? && r.error.MissingKey?)
    ensures r.Failure? && r.error.MissingKey? ==> FirstMissing(Columns(m), source) == Some(r.error.column)
    ensures r.Failure? && r.error.IllTyped? ==> r.error.column in Columns(m) && r.error.column in source
  {
    match FirstMissing(Columns(m), source)
    case Some(k) => Failure(MissingKey(k))
    case None =>
      var caseId := ReadText(source, m.caseId);
      var activity := ReadText(source, m.activity);
      var start := ReadInstant(source, m.start);
      var end := ReadInstant(source, m.end);
      var resource := ReadOptionalText(source, m.resource);
      var enabled := ReadOptionalInstant(source, m.enablement);
      if caseId.Failure? then Failure(caseId.error)
      else if activity.Failure? then Failure(activity.error)
      else if start.Failure? then Failure(start.error)
      else if end.Failure? then Failure(end.error)
      else if resource.Failure? then Failure(resource.error)
      else if enabled.Failure? then Failure(enabled.error)
      else Success(Event(caseId.value, activity.value, start.value, end.value, enabled.value, resource.value))
  }

  /** No column name occurs twice. */
  predicate Distinct(cols: seq<string>) {
    forall i, j :: 0 <= i < j < |cols| ==> cols[i] != cols[j]
  }

  /**
   * The record that mapping `m` writes for event `e`: each attribute in its
   * column, a missing optional attribute as a Null cell.
   */
  function EventToDict(m: Mapping, e: Event): (source: map<string, Cell>)
    ensures forall k :: k in Columns(m) ==> k in source
  {
    var base := map[m.caseId := Text(e.caseId)][m.activity := Text(e.activity)]
                   [m.start := Instant(e.start)][m.end := Instant(e.end)];
    var withResource := if m.resource.Some? then base[m.resource.value := TextCell(e.resource)] else base;
    if m.enablement.Some? then withResource[m.enablement.value := InstantCell(e.enabled)] else withResource
  }

  /**
   * Reading back the record written for an event yields that event, provided
   * the mapping's columns are distinct and the event has no attribute the
   * mapping has no column for.
   */
  lemma DictToEventRoundTrip(m: Mapping, e: Event)
    requires Distinct(Columns(m))
    requires m.resource.None? ==> e.resource.None?
    requires m.enablement.None? ==> e.enabled.None?
    ensures DictToEvent(m, EventToDict(m, e)) == Success(e)
  {
    var cols := Columns(m);
    var source := EventToDict(m, e);
    assert cols[0] == m.caseId && cols[1] == m.activity && cols[2] == m.start && cols[3] == m.end;
    assert cols[0] != cols[1] && cols[0] != cols[2] && cols[0] != cols[3];
    assert cols[1] != cols[2] && cols[1] != cols[3] && cols[2] != cols[3];
    if m.resource.Some? {
      assert cols[4] == m.resource.value;
      assert forall i :: 0 <= i < 4 ==> cols[i] != cols[4];
    }
    if m.enablement.Some? {
      assert cols[|cols| - 1] == m.enablement.value;
      assert forall i :: 0 <= i < |cols| - 1 ==> cols[i] != cols[|cols| - 1];
    }
    assert source[m.caseId] == Text(e.caseId);
    assert source[m.activity] == Text(e.activity);
    assert source[m.start] == Instant(e.start);
    assert source[m.end] == Instant(e.end);
    if m.resource.Some? {
      assert cols[4] == m.resource.value;
      assert source[m.resource.value] == TextCell(e.resource);
    }
    if m.enablement.Some? {
      assert cols[|cols| - 1] == m.enablement.value;
      assert source[m.enablement.value] == InstantCell(e.enabled);
    }
  }

  /**
   * Conversely, a record from which the mapping can read an event yields that
   * event: DictToEvent succeeds exactly on the records that project to an event.
   */
  lemma DictToEventComplete(m: Mapping, source: map<string, Cell>, e: Event)
    requires Projects(m, source, e)
    ensures DictToEvent(m, source) == Success(e)
  {
  }

  /** A record determines the event it projects to: there is at most one. */
  lemma ProjectsUnique(m: Mapping, source: map<string, Cell>, e1: Event, e2: Event)
    requires Projects(m, source, e1) && Projects(m, source, e2)
    ensures e1 == e2
  {
  }

  /** The default CSV mapping reads six distinct columns. */
  lemma DefaultMappingDistinct()
    ensures Distinct(Columns(DEFAULT_CSV_MAPPING)) && |Columns(DEFAULT_CSV_MAPPING)| == 6
  {
  }
}
