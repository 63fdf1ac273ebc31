/**
 * A cgminer reply (`CgMinerResponse`): a status section, the payload rows of
 * a VERSION, STATS or POOLS command, and the request id; and the builder
 * that assembles one.
 */
module CgMinerResponse {
  import opened Wrappers
  import opened JavaLang
  import Validate
  import JavaHash

  datatype StatusCode = Success | Warning | Informational | Error | Fatal

  /** One payload row: field name to value. */
  type Row = map<string, string>

  /** `CgMinerStatusSection`, reduced to its status code and description. */
  datatype StatusSection = StatusSection(code: StatusCode, description: Option<string>) {
    /** A stand-in for the status section's hash code, mixed as `HashCodeBuilder` does. */
    ghost function HashCode(): Int32
    {
      var ordinal := match code
        case Success => 0 case Warning => 1 case Informational => 2 case Error => 3 case Fatal => 4;
      var descriptionHash := match description
        case None => 0
        case Some(d) => JavaHash.StringHash(d);
      JavaHash.Append(JavaHash.Append(JavaHash.SEED, ordinal), descriptionHash)
    }
  }

  /** The status section a new builder holds: FATAL, nothing else set. */
  const DEFAULT_STATUS_SECTION: StatusSection := StatusSection(Fatal, None)

  const STATUS_SECTION_REQUIRED: string := "statusSection is required"

  /**
   * A reply. `values` is None when a deserialised reply carried no payload;
   * a reply made by the builder always has one.
   */
  datatype Response = Response(statusSection: StatusSection, values: Option<seq<Row>>, id: Long) {

    /** The payload rows; never null, empty when there is no payload. */
    function GetValues(): (r: seq<Row>)
      ensures values.Some? ==> r == values.value
      ensures values.None? ==> r == []
    {
      match values
      case Some(rows) => rows
      case None => []
    }

    /** Whether the command succeeded: the status code is SUCCESS. */
    function IsSuccess(): (r: bool)
      ensures r <==> statusSection.code == Success
    {
      statusSection.code.Success?
    }

    /** Whether the reply is usable: successful and with at least one row. */
    function HasValues(): (r: bool)
      ensures r <==> IsSuccess() && GetValues() != []
    {
      IsSuccess() && values.Some? && values.value != []
    }

    /** `equals`: field by field over the status section, the rows and the id. */
    function Equals(other: Option<Response>): (r: bool)
      ensures r <==> other == Some(this)
    {
      match other
      case None => false
      case Some(that) =>
        statusSection == that.statusSection && values == that.values && id == that.id
    }

    /** `hashCode`: the three fields appended to a `HashCodeBuilder` in order. */
    ghost function HashCode(): (r: Int32)
      ensures r == JavaHash.BuilderTotal([statusSection.HashCode(), ValuesHash(), JavaHash.LongHash(id)])
    {
      var sectionHash := statusSection.HashCode();
      var valuesHash := ValuesHash();
      var idHash := JavaHash.LongHash(id);
      JavaHash.BuilderTotalOfThree(sectionHash, valuesHash, idHash);
      JavaHash.Append(JavaHash.Append(JavaHash.Append(JavaHash.SEED, sectionHash), valuesHash), idHash)
    }

    /** The hash `HashCodeBuilder` appends for the rows: 0 for null, else the list's. */
    ghost function ValuesHash(): Int32
    {
      match values
      case None => 0
      case Some(rows) => JavaHash.ListHash(rows)
    }
  }

  /**
   * The validating constructor: a null status section throws
   * `NullPointerException`; otherwise the rows are copied into the reply.
   */
  function NewResponse(statusSection: Option<StatusSection>, values: seq<Row>, id: Long): (r: Result<Response, Exception>)
    ensures r.Err? <==> statusSection.None?
    ensures r.Err? ==> r.error == NullPointer(STATUS_SECTION_REQUIRED)
    ensures r.Ok? ==> r.value.statusSection == statusSection.value && r.value.id == id
    ensures r.Ok? ==> r.value.values.Some? && r.value.GetValues() == values
  {
    var check := Validate.NotNull(statusSection, STATUS_SECTION_REQUIRED);
    if check.Fail? then Err(check.error)
    else Ok(Response(statusSection.value, Some(values), id))
  }

  lemma EqualsIsSymmetric(a: Response, b: Response)
    ensures a.Equals(Some(b)) <==> b.Equals(Some(a))
  {
  }

  /** Equal replies have equal hash codes. */
  lemma EqualsAgreesWithHashCode(a: Response, b: Response)
    requires a.Equals(Some(b))
    ensures a.HashCode() == b.HashCode()
  {
  }

  /** A reply whose status is not SUCCESS has no usable values, whatever its rows. */
  lemma NoValuesUnlessSuccess(r: Response)
    ensures r.statusSection.code != Success ==> !r.HasValues()
    ensures r.IsSuccess() ==> (r.HasValues() <==> r.GetValues() != [])
  {
  }

  // ---------------------------------------------------------------------
  // The builder as a state machine
  // ---------------------------------------------------------------------

  /** A call a client makes on a builder before `build()`. */
  datatype BuilderCall =
    | AddValues(row: Row)
    | SetId(id: Long)
    | SetStatusSection(section: Option<StatusSection>)

  /** What a builder holds; a null status section is None. */
  datatype BuilderState = BuilderState(values: seq<Row>, id: Long, statusSection: Option<StatusSection>) {

    /** The effect of one call: it changes its own field and no other. */
    function Apply(call: BuilderCall): (r: BuilderState)
      ensures r.values == if call.AddValues? then values + [call.row] else values
      ensures r.id == if call.SetId? then call.id else id
      ensures r.statusSection == if call.SetStatusSection? then call.section else statusSection
    {
      match call
      case AddValues(row) => this.(values := values + [row])
      case SetId(newId) => this.(id := newId)
      case SetStatusSection(section) => this.(statusSection := section)
    }

    /** `build()`: hands the builder's fields to the validating constructor. */
    function Build(): (r: Result<Response, Exception>)
      ensures r.Err? <==> statusSection.None?
      ensures r.Ok? ==> r.value == Response(statusSection.value, Some(values), id)
    {
      NewResponse(statusSection, values, id)
    }
  }

  /** A new builder: no rows, id 0, the FATAL status section. */
  const NEW_BUILDER: BuilderState := BuilderState([], 0, Some(DEFAULT_STATUS_SECTION))

  /** The state of a new builder after the given calls, in order. */
  function Replay(calls: seq<BuilderCall>): BuilderState
    decreases |calls|
  {
    if calls == [] then NEW_BUILDER else Replay(calls[..|calls| - 1]).Apply(calls[|calls| - 1])
  }

  /** The rows passed to `addValues`, in call order. */
  function AddedRows(calls: seq<BuilderCall>): seq<Row>
    decreases |calls|
  {
    if calls == [] then []
    else
      var last := calls[|calls| - 1];
      AddedRows(calls[..|calls| - 1]) + if last.AddValues? then [last.row] else []
  }

  /** The id passed to the last `setId`, or 0 when there was none. */
  function LastId(calls: seq<BuilderCall>): Long
    decreases |calls|
  {
    if calls == [] then 0
    else if calls[|calls| - 1].SetId? then calls[|calls| - 1].id
    else LastId(calls[..|calls| - 1])
  }

  /** The section passed to the last `setStatusSection`, or None when there was none. */
  function LastStatusSection(calls: seq<BuilderCall>): Option<Option<StatusSection>>
    decreases |calls|
  {
    if calls == [] then None
    else if calls[|calls| - 1].SetStatusSection? then Some(calls[|calls| - 1].section)
    else LastStatusSection(calls[..|calls| - 1])
  }

  /**
   * Whatever the calls, the builder holds the rows added, in order, the last
   * id set (0 by default) and the last status section set (FATAL by default).
   */
  lemma {:induction false} ReplayState(calls: seq<BuilderCall>)
    ensures Replay(calls).values == AddedRows(calls)
    ensures Replay(calls).id == LastId(calls)
    ensures Replay(calls).statusSection ==
            match LastStatusSection(calls)
            case None => Some(DEFAULT_STATUS_SECTION)
            case Some(section) => section
    decreases |calls|
  {
    if calls != [] {
      ReplayState(calls[..|calls| - 1]);
    }
  }

  /** `build()` throws exactly when the last status section set was null. */
  lemma {:induction false} BuildFailsIffStatusSectionSetToNull(calls: seq<BuilderCall>)
    ensures Replay(calls).Build().Err? <==> LastStatusSection(calls) == Some(None)
    ensures Replay(calls).Build().Err? ==>
            Replay(calls).Build().error == NullPointer(STATUS_SECTION_REQUIRED)
  {
    ReplayState(calls);
  }

  /** A built reply holds the rows added, in call order, and the last id set. */
  lemma {:induction false} BuiltRowsAreAddedRows(calls: seq<BuilderCall>)
    ensures Replay(calls).Build().Ok? ==>
            Replay(calls).Build().value.GetValues() == AddedRows(calls) &&
            Replay(calls).Build().value.id == LastId(calls)
  {
    ReplayState(calls);
  }

  /**
   * A builder whose status section was never set builds a FATAL reply, which
   * is neither a success nor has values, whatever rows were added.
   */
  lemma {:induction false} BuildWithoutStatusSectionIsFatal(calls: seq<BuilderCall>)
    requires forall i :: 0 <= i < |calls| ==> !calls[i].SetStatusSection?
    ensures Replay(calls).Build().Ok?
    ensures Replay(calls).Build().value.statusSection.code == Fatal
    ensures !Replay(calls).Build().value.IsSuccess() && !Replay(calls).Build().value.HasValues()
  {
    NeverSetMeansNoLastStatusSection(calls);
    ReplayState(calls);
  }

  lemma {:induction false} NeverSetMeansNoLastStatusSection(calls: seq<BuilderCall>)
    requires forall i :: 0 <= i < |calls| ==> !calls[i].SetStatusSection?
    ensures LastStatusSection(calls) == None
    decreases |calls|
  {
    if calls != [] {
      NeverSetMeansNoLastStatusSection(calls[..|calls| - 1]);
    }
  }

  /** `CgMinerResponse.Builder`. */
  class Builder {
    var values: seq<Row>
    var id: Long
    var statusSection: Option<StatusSection>

    function State(): BuilderState
      reads this
    {
      BuilderState(values, id, statusSection)
    }

    constructor ()
      ensures State() == NEW_BUILDER
    {
      values := [];
      id := 0;
      statusSection := Some(DEFAULT_STATUS_SECTION);
    }

    /** Appends one row; returns the builder for chaining. */
    method AddValues(row: Row) returns (self: Builder)
      modifies this
      ensures State() == old(State()).Apply(BuilderCall.AddValues(row))
      ensures self == this
    {
      values := values + [row];
      self := this;
    }

    method SetId(newId: Long) returns (self: Builder)
      modifies this
      ensures State() == old(State()).Apply(BuilderCall.SetId(newId))
      ensures self == this
    {
      id := newId;
      self := this;
    }

    method SetStatusSection(section: Option<StatusSection>) returns (self: Builder)
      modifies this
      ensures State() == old(State()).Apply(BuilderCall.SetStatusSection(section))
      ensures self == this
    {
      statusSection := section;
      self := this;
    }

    method Build() returns (r: Result<Response, Exception>)
      ensures r == State().Build()
      ensures r.Ok? ==> r.value.GetValues() == values
    {
      r := NewResponse(statusSection, values, id);
    }
  }

  /** A builder used with no calls builds a FATAL reply with no rows and id 0. */
  method BuildNewBuilder() returns (r: Result<Response, Exception>)
    ensures r == Ok(Response(DEFAULT_STATUS_SECTION, Some([]), 0))
    ensures !r.value.IsSuccess() && !r.value.HasValues() && r.value.GetValues() == []
  {
    var b := new Builder();
    r := b.Build();
  }

  /**
   * Building copies the rows: adding a row to the same builder afterwards
   * leaves the reply already built as it was.
   */
  method BuildThenAddValues(b: Builder, row: Row) returns (r: Result<Response, Exception>)
    modifies b
    ensures r == old(b.State()).Build()
    ensures r.Ok? ==> r.value.GetValues() == old(b.values)
    ensures b.values == old(b.values) + [row]
  {
    r := b.Build();
    var _ := b.AddValues(row);
  }
}
