/** The collaborative spreadsheet component of the client: its state (the cell
    table, the focused cell, the column widths, the header height, the share
    link and the resize in progress) and the handlers that change it. The
    component's socket emits are returned by the handlers that make them. */
module ClientSheet {
  import opened Wrappers
  import opened Rooms
  import opened Protocol
  import opened CellIds
  import opened Grid
  import Hub

  /** `process.env.REACT_APP_FRONTEND_URL || window.location.origin`: the
      configured front-end address unless it is unset or empty. */
  function ShareBase(frontendUrl: Option<string>, origin: string): (base: string)
    ensures frontendUrl.Some? && frontendUrl.value != "" ==> base == frontendUrl.value
    ensures frontendUrl.None? || frontendUrl.value == "" ==> base == origin
  {
    if frontendUrl.Some? && frontendUrl.value != "" then frontendUrl.value else origin
  }

  const SheetPath: string := "/spreadsheet/"

  /** The share link: the base address followed by the sheet's client route. */
  function ShareLink(base: string, id: SheetId): (link: string)
    ensures |link| == |base| + |SheetPath| + |id|
    ensures link[..|base|] == base
    ensures link[|base|..|base| + |SheetPath|] == SheetPath
    ensures link[|base| + |SheetPath|..] == id
  {
    base + SheetPath + id
  }

  /** Links to different sheets from the same base differ. */
  lemma ShareLinkInjective(base: string, id1: SheetId, id2: SheetId)
    ensures ShareLink(base, id1) == ShareLink(base, id2) <==> id1 == id2
  {
    if ShareLink(base, id1) == ShareLink(base, id2) {
      assert id1 == ShareLink(base, id1)[|base| + |SheetPath|..];
    }
  }

  /** What the hub does with this component's `cellUpdate`: every member of
      the sheet's room outside the editor's own room (so every other
      connection, in the usual case) receives the key and value, and writing them
      into that peer's table makes the cell render as the new value. */
  lemma EditReachesPeer(s: Hub.State, sender: SocketId, peer: SocketId, id: SheetId,
                        row: nat, col: nat, value: string, peerCells: map<string, string>)
    requires sender in s.activeUsers
    requires peer in Members(s.rooms, id) && peer !in Members(s.rooms, sender)
    ensures var u := s.activeUsers[sender];
            var d := Delivery(peer, CellUpdated(u.userId, u.username, CellId(row, col), value));
            && d in Hub.OnCellUpdate(s, sender, CellEdit(id, CellId(row, col), value)).out
            && RenderedValue(WithCell(peerCells, d.event.cellId, d.event.value), row, col) == value
  {
    RenderedAfterWrite(peerCells, row, col, value, row, col);
  }

  /** The editor, while connected, never receives the echo of its own edit;
      nor does a connection in the editor's own room or one outside the
      sheet's room. */
  lemma EditStaysInRoom(s: Hub.State, sender: SocketId, other: SocketId, edit: CellEdit)
    requires Hub.Connected(s, sender)
    requires other == sender || other in Members(s.rooms, sender) || other !in Members(s.rooms, edit.spreadsheetId)
    ensures forall d :: d in Hub.OnCellUpdate(s, sender, edit).out ==> d.to != other
  {
  }

  /** One mounted component for sheet `id`. */
  class Spreadsheet {
    const id: SheetId
    var cells: map<string, string>
    var activeCell: Option<string>
    var columnWidths: map<nat, Width>
    var headerHeight: int
    var shareLink: string
    var resizing: Option<Drag>

    /** The `useState` and `useRef` initial values. */
    constructor (id: SheetId)
      ensures this.id == id
      ensures cells == map[] && activeCell == None && columnWidths == map[]
      ensures headerHeight == DefaultHeaderHeight && shareLink == "" && resizing == None
    {
      this.id := id;
      cells := map[];
      activeCell := None;
      columnWidths := map[];
      headerHeight := DefaultHeaderHeight;
      shareLink := "";
      resizing := None;
    }

    /** The mount effect: fills the cell table and the column widths, sets the
        share link, and emits `joinSpreadsheet` with the session's user id and
        no username. */
    method Mount(userId: UserId, frontendUrl: Option<string>, origin: string) returns (out: JoinRequest)
      modifies this`cells, this`columnWidths, this`shareLink
      ensures InitialCells(cells) && InitialWidths(columnWidths)
      ensures shareLink == ShareLink(ShareBase(frontendUrl, origin), id)
      ensures out == JoinRequest(id, userId, None)
    {
      shareLink := ShareLink(ShareBase(frontendUrl, origin), id);
      out := JoinRequest(id, userId, None);
      cells, columnWidths := InitialTables();
    }

    /** `handleCellChange`: writes the cell locally and emits `cellUpdate`
        with the sheet id, the cell key and the value. */
    method HandleCellChange(row: nat, col: nat, value: string) returns (out: CellEdit)
      modifies this`cells
      ensures cells == WithCell(old(cells), CellId(row, col), value)
      ensures out == CellEdit(id, CellId(row, col), value)
    {
      var cellId := CellId(row, col);
      cells := WithCell(cells, cellId, value);
      out := CellEdit(id, cellId, value);
    }

    /** The `cellUpdated` listener: writes the received key and value. */
    method OnCellUpdated(data: OutEvent)
      requires data.CellUpdated?
      modifies this`cells
      ensures cells == WithCell(old(cells), data.cellId, data.value)
    {
      cells := WithCell(cells, data.cellId, data.value);
    }

    method HandleCellFocus(cellId: string)
      modifies this`activeCell
      ensures activeCell == Some(cellId)
    {
      activeCell := Some(cellId);
    }

    method HandleCellBlur()
      modifies this`activeCell
      ensures activeCell == None
    {
      activeCell := None;
    }

    /** `startResizing(col, e, isHeader)`: records where the drag began and
        the size being dragged. The header handle passes no column; a column
        handle passes its index. */
    method StartResizing(col: Option<nat>, clientX: int, clientY: int, isHeader: bool)
      requires isHeader || col.Some?
      modifies this`resizing
      ensures resizing == Some(Drag(col, clientX, clientY, WidthOf(columnWidths, col), headerHeight, isHeader))
      ensures WellFormedDrag(resizing)
    {
      resizing := Some(Drag(col, clientX, clientY, WidthOf(columnWidths, col), headerHeight, isHeader));
    }

    /** `handleMouseMove`: the layout after the move, as `MouseMove` gives it. */
    method HandleMouseMove(clientX: int, clientY: int)
      requires WellFormedDrag(resizing)
      modifies this`columnWidths, this`headerHeight
      ensures Layout(columnWidths, headerHeight) == MouseMove(resizing, Layout(old(columnWidths), old(headerHeight)), clientX, clientY)
    {
      if resizing.Some? {
        var drag := resizing.value;
        if drag.isHeader {
          headerHeight := DraggedHeight(drag.startHeight, drag.startY, clientY);
        } else {
          columnWidths := columnWidths[drag.col.value := DraggedWidth(drag.startWidth, drag.startX, clientX)];
        }
      }
    }

    method StopResizing()
      modifies this`resizing
      ensures resizing == None
    {
      resizing := None;
    }
  }
}
