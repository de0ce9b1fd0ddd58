/** The transfer-handler table of rdwr.c and the first-match lookup that
    start_rdwr runs over it. */
module Handlers {
  import opened Fx3

  /** The handler types start_rdwr switches on. `Other` stands for any further
      type: every switch in rdwr.c takes its default branch (or no branch) for it. */
  datatype HandlerType = Cpu | SlaveFifo | Fdi | Other

  /** One io_handler_t: its type, the terminal address it serves (0 is the
      wildcard) and whether its uninit_handler pointer is set. */
  datatype IoHandler = IoHandler(kind: HandlerType, termAddr: u16, hasUninit: bool)

  /** The identity of a handler pointer: the address of io_handlers[index], or
      the address of firmware_di_handler. */
  datatype HandlerRef = Entry(index: nat) | FirmwareDi

  /** io_handlers up to, not including, its HANDLER_TYPE_TERMINATOR entry, and
      firmware_di_handler. */
  datatype HandlerTable = HandlerTable(ioHandlers: seq<IoHandler>, diHandler: IoHandler) {

    predicate ValidRef(r: HandlerRef) {
      r.Entry? ==> r.index < |ioHandlers|
    }

    predicate ValidOpt(r: Option<HandlerRef>) {
      r.Some? ==> ValidRef(r.value)
    }

    /** The entry a valid handler pointer points at. */
    function Get(r: HandlerRef): IoHandler
      requires ValidRef(r)
    {
      if r.FirmwareDi? then diHandler else ioHandlers[r.index]
    }
  }

  /** An entry serves `term` when its address is `term` or the wildcard 0. */
  predicate Matches(h: IoHandler, term: u16) {
    h.termAddr == term || h.termAddr == 0
  }

  /** The index of the first entry at or after `from` that serves `term`. */
  function FirstMatch(tbl: seq<IoHandler>, term: u16, from: nat): (r: Option<nat>)
    requires from <= |tbl|
    ensures r.Some? ==> from <= r.value < |tbl| && Matches(tbl[r.value], term)
    ensures r.Some? ==> forall j :: from <= j < r.value ==> !Matches(tbl[j], term)
    ensures r.None? ==> forall j :: from <= j < |tbl| ==> !Matches(tbl[j], term)
    decreases |tbl| - from
  {
    if from == |tbl| then None
    else if Matches(tbl[from], term) then Some(from)
    else FirstMatch(tbl, term, from + 1)
  }

  /** The lookup loop of start_rdwr: scan io_handlers until the terminator and
      stop at the first entry whose term_addr is `term` or 0. */
  method FindHandler(tbl: seq<IoHandler>, term: u16) returns (found: Option<nat>)
    ensures found == FirstMatch(tbl, term, 0)
  {
    var i := 0;
    while i < |tbl|
      invariant 0 <= i <= |tbl|
      invariant FirstMatch(tbl, term, i) == FirstMatch(tbl, term, 0)
    {
      if tbl[i].termAddr == term || tbl[i].termAddr == 0 {
        return Some(i);
      }
      i := i + 1;
    }
    return None;
  }

  /** The handler start_rdwr chooses: firmware_di_handler for the internal
      feature context, otherwise the first matching io_handlers entry, if any. */
  function Select(tbl: HandlerTable, term: u16, firmwareDi: bool): (r: Option<HandlerRef>)
    ensures tbl.ValidOpt(r)
    ensures firmwareDi ==> r == Some(FirmwareDi)
    ensures !firmwareDi && r.Some? ==>
      r.value.Entry? && Matches(tbl.ioHandlers[r.value.index], term) &&
      forall j :: 0 <= j < r.value.index ==> !Matches(tbl.ioHandlers[j], term)
    ensures !firmwareDi && r.None? ==>
      forall j :: 0 <= j < |tbl.ioHandlers| ==> !Matches(tbl.ioHandlers[j], term)
  {
    if firmwareDi then Some(FirmwareDi)
    else match FirstMatch(tbl.ioHandlers, term, 0)
      case Some(i) => Some(Entry(i))
      case None => None
  }

  /** The handler selection of start_rdwr, run against the table. */
  method ChooseHandler(tbl: HandlerTable, term: u16, firmwareDi: bool) returns (r: Option<HandlerRef>)
    ensures r == Select(tbl, term, firmwareDi)
  {
    if firmwareDi {
      return Some(FirmwareDi);
    }
    var found := FindHandler(tbl.ioHandlers, term);
    if found.Some? {
      return Some(Entry(found.value));
    }
    return None;
  }

  /** An entry after a wildcard entry is never selected, whatever the terminal. */
  lemma WildcardShadows(tbl: HandlerTable, term: u16, w: nat)
    requires w < |tbl.ioHandlers| && tbl.ioHandlers[w].termAddr == 0
    ensures Select(tbl, term, false).Some?
    ensures Select(tbl, term, false).value.index <= w
  {
    assert Matches(tbl.ioHandlers[w], term);
  }
}
