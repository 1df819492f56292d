/**
 * remotelegends.cpp: the range check every `Get<Type>List` RPC makes before
 * copying a slice of one of the world's vectors into its reply.
 *
 * A request may carry `list_start` and `list_end` (protobuf `int32`, both
 * optional); the check fills in the defaults, validates the range and hands
 * it back through two `int*` out-parameters, which are modelled as `Cell`
 * objects. The world-loaded flag, which the plugin asks the DFHack core for,
 * is a parameter.
 */
module RemoteLegends {
  import opened Base

  /** C++ `int`, 32 bits, as are the protobuf `int32` fields. */
  newtype int32 = x: int | -0x8000_0000 <= x < 0x8000_0000

  /** The DFHack `command_result` values the check and the getter return. */
  datatype CommandResult = CrOk | CrFailure | CrWrongUsage

  /** `MyListRequest`: both bounds are optional protobuf fields. */
  datatype ListRequest = ListRequest(listStart: Option<int32>, listEnd: Option<int32>)

  /** What the check decides: a rejection code, or the inclusive range `[start, end]`. */
  datatype Checked = Rejected(rc: CommandResult) | Accepted(start: int, end: int)

  /** The start a request asks for: `list_start`, or 0 when the field is absent. */
  function StartOf(req: ListRequest): int
  {
    if req.listStart.Some? then req.listStart.value as int else 0
  }

  /** The inclusive end a request asks for: `list_end`, or `max_end-1` (the last index) when absent. */
  function EndOf(req: ListRequest, maxEnd: int32): int
  {
    if req.listEnd.Some? then req.listEnd.value as int else maxEnd as int - 1
  }

  /**
   * `check_list_request` AS WRITTEN: no world gives `CR_FAILURE`, before a
   * missing request is looked at; a missing request, a negative start, an
   * end before the start or an end past `max_end` give `CR_WRONG_USAGE`.
   * An end equal to `max_end` is accepted.
   */
  function CheckList(worldLoaded: bool, req: Option<ListRequest>, maxEnd: int32): (r: Checked)
    ensures !worldLoaded ==> r == Rejected(CrFailure)
    ensures worldLoaded && req.None? ==> r == Rejected(CrWrongUsage)
    ensures r.Accepted? <==>
      worldLoaded && req.Some? && 0 <= StartOf(req.value) <= EndOf(req.value, maxEnd) <= maxEnd as int
    ensures r.Rejected? ==> r.rc != CrOk
  {
    if !worldLoaded then Rejected(CrFailure)
    else if req.None? then Rejected(CrWrongUsage)
    else
      var start := StartOf(req.value);
      var end := EndOf(req.value, maxEnd);
      if start < 0 || end < start || end > maxEnd as int then Rejected(CrWrongUsage)
      else Accepted(start, end)
  }

  /**
   * The check as evidently intended: the getter copies the elements
   * `start..end` inclusive, so `end` must be a valid index, below `max_end`.
   * Every accepted range lies inside a vector of `max_end` elements.
   */
  function CheckListCorrected(worldLoaded: bool, req: Option<ListRequest>, maxEnd: int32): (r: Checked)
    ensures !worldLoaded ==> r == Rejected(CrFailure)
    ensures worldLoaded && req.None? ==> r == Rejected(CrWrongUsage)
    ensures r.Accepted? <==>
      worldLoaded && req.Some? && 0 <= StartOf(req.value) <= EndOf(req.value, maxEnd) < maxEnd as int
    ensures r.Accepted? ==> 0 <= r.start <= r.end < maxEnd as int
    ensures r.Rejected? ==> r.rc != CrOk
  {
    if !worldLoaded then Rejected(CrFailure)
    else if req.None? then Rejected(CrWrongUsage)
    else
      var start := StartOf(req.value);
      var end := EndOf(req.value, maxEnd);
      if start < 0 || end < start || end >= maxEnd as int then Rejected(CrWrongUsage)
      else Accepted(start, end)
  }

  /** A request with no bounds on a non-empty vector asks for all of it. */
  lemma DefaultIsWholeList(maxEnd: int32)
    requires maxEnd > 0
    ensures CheckList(true, Some(ListRequest(None, None)), maxEnd) == Accepted(0, maxEnd as int - 1)
    ensures CheckListCorrected(true, Some(ListRequest(None, None)), maxEnd) == Accepted(0, maxEnd as int - 1)
  {
  }

  /** On an empty vector the default end is -1, so a request with no bounds is refused. */
  lemma EmptyListRejected(req: ListRequest)
    requires req.listEnd.None?
    ensures CheckList(true, Some(req), 0) == Rejected(CrWrongUsage)
    ensures CheckListCorrected(true, Some(req), 0) == Rejected(CrWrongUsage)
  {
  }

  /** The two checks decide alike on every request except those whose end is exactly `max_end`. */
  lemma CorrectionOnlyAtMaxEnd(worldLoaded: bool, req: Option<ListRequest>, maxEnd: int32)
    ensures CheckList(worldLoaded, req, maxEnd) != CheckListCorrected(worldLoaded, req, maxEnd) <==>
      worldLoaded && req.Some? && 0 <= StartOf(req.value) <= EndOf(req.value, maxEnd) == maxEnd as int
  {
  }

  /**
   * The off-by-one as written: on a vector of 3 elements `list_end = 3` is
   * accepted, and the getter's range `&v[0] .. &v[end+1]` then runs to
   * index 4, past the vector's end.
   */
  lemma AcceptedEndOverruns()
    ensures var r := CheckList(true, Some(ListRequest(None, Some(3))), 3);
      r == Accepted(0, 3) && r.end + 1 > 3
  {
  }

  /** An `int*` out-parameter: the caller's local the check writes through. */
  class Cell {
    var value: int32

    constructor (value: int32)
      ensures this.value == value
    {
      this.value := value;
    }
  }

  /**
   * `check_list_request(stream, in, max_end, startp, endp)`, with the bound
   * corrected: on `CR_OK` it writes the range through the two pointers (the
   * end last, so it wins when both point at the same int); otherwise it
   * writes nothing.
   */
  method CheckListRequest(worldLoaded: bool, req: Option<ListRequest>, maxEnd: int32, startp: Cell, endp: Cell)
    returns (rc: CommandResult)
    modifies startp, endp
    ensures CheckListCorrected(worldLoaded, req, maxEnd).Rejected? ==>
      rc == CheckListCorrected(worldLoaded, req, maxEnd).rc && unchanged(startp, endp)
    ensures var r := CheckListCorrected(worldLoaded, req, maxEnd);
      r.Accepted? ==> rc == CrOk && endp.value as int == r.end && startp.value as int == (if startp == endp then r.end else r.start)
  {
    if !worldLoaded {
      return CrFailure;
    }
    if req.None? {
      return CrWrongUsage;
    }
    var start: int := if req.value.listStart.Some? then req.value.listStart.value as int else 0;
    var end: int := if req.value.listEnd.Some? then req.value.listEnd.value as int else maxEnd as int - 1;
    if start < 0 || end < start || end >= maxEnd as int {
      return CrWrongUsage;
    }
    startp.value := start as int32;
    endp.value := end as int32;
    rc := CrOk;
  }

  /**
   * The body of a `Get<Type>List` method: check the request against the
   * vector's size, then describe the elements `start..end` inclusive, in
   * order, into the reply's list (each element's description is its value
   * here). On any other code than `CR_OK` that code is returned with an
   * empty list.
   */
  method GetList<T>(worldLoaded: bool, req: Option<ListRequest>, vec: seq<T>) returns (rc: CommandResult, list: seq<T>)
    requires |vec| < 0x8000_0000
    ensures var r := CheckListCorrected(worldLoaded, req, |vec| as int32);
      (r.Rejected? ==> rc == r.rc && list == []) &&
      (r.Accepted? ==> rc == CrOk && list == vec[r.start..r.end + 1])
  {
    var startp := new Cell(0);
    var endp := new Cell(0);
    rc := CheckListRequest(worldLoaded, req, |vec| as int32, startp, endp);
    list := [];
    if rc != CrOk {
      return;
    }
    var start := startp.value as int;
    var end := endp.value as int;
    var i := start;
    while i < end + 1
      invariant start <= i <= end + 1
      invariant list == vec[start..i]
    {
      list := list + [vec[i]];
      i := i + 1;
    }
  }

  /** With no bounds, a non-empty vector is listed whole. */
  lemma GetWholeList<T>(vec: seq<T>)
    requires 0 < |vec| < 0x8000_0000
    ensures var r := CheckListCorrected(true, Some(ListRequest(None, None)), |vec| as int32);
      r.Accepted? && vec[r.start..r.end + 1] == vec
  {
  }
}
