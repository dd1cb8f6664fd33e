/** The older spreadsheet component: the same cell table and resize handles
    as the current one, no room join and no share link, a `cellUpdate` that
    carries only the key and the value, and a share form posted to the HTTP
    API. */
module LegacySheet {
  import opened Wrappers
  import opened Rooms
  import opened CellIds
  import opened Grid
  import LegacyRelay

  /** The body and path of the share form's POST. */
  datatype ShareRequest = ShareRequest(path: string, email: string, access: string)

  const ShareRoutePrefix: string := "/api/spreadsheets/"
  const ShareRouteSuffix: string := "/share"

  /** How the template literal prints the `id` prop: an absent prop prints
      as `undefined`. */
  function IdText(id: Option<string>): string
  {
    if id.Some? then id.value else "undefined"
  }

  /** The share route of the component's `id` prop: the route prefix, the
      printed id as the route parameter, then the suffix. */
  function SharePath(id: Option<string>): (path: string)
    ensures |path| == |ShareRoutePrefix| + |IdText(id)| + |ShareRouteSuffix|
    ensures path[..|ShareRoutePrefix|] == ShareRoutePrefix
    ensures path[|ShareRoutePrefix|..|ShareRoutePrefix| + |IdText(id)|] == IdText(id)
    ensures path[|ShareRoutePrefix| + |IdText(id)|..] == ShareRouteSuffix
  {
    ShareRoutePrefix + IdText(id) + ShareRouteSuffix
  }

  /** Mounted without an `id`, the component posts every share to the route
      of the sheet id `undefined`. */
  lemma ShareWithoutIdTargetsUndefined()
    ensures SharePath(None) == "/api/spreadsheets/undefined/share"
  {
  }

  /** This component never joins a room and its edits name none, so on the
      earlier relay they go to the `undefined` room: when nobody has joined
      that room, an edit reaches no one. */
  lemma EditWithoutRoomReachesNobody(rooms: map<LegacyRelay.Room, set<SocketId>>, sender: SocketId, row: nat, col: nat, value: string)
    requires None !in rooms
    ensures LegacyRelay.Forward(rooms, sender, LegacyRelay.Payload(None, CellId(row, col), value)) == {}
  {
  }

  /** One mounted component; its `id` prop may be absent. */
  class Spreadsheet {
    const id: Option<string>
    var cells: map<string, string>
    var activeCell: Option<string>
    var columnWidths: map<nat, Width>
    var headerHeight: int
    var shareEmail: string
    var shareAccess: string
    var resizing: Option<Drag>

    /** The `useState` and `useRef` initial values. */
    constructor (id: Option<string>)
      ensures this.id == id
      ensures cells == map[] && activeCell == None && columnWidths == map[]
      ensures headerHeight == DefaultHeaderHeight && resizing == None
      ensures shareEmail == "" && shareAccess == "view"
    {
      this.id := id;
      cells := map[];
      activeCell := None;
      columnWidths := map[];
      headerHeight := DefaultHeaderHeight;
      shareEmail := "";
      shareAccess := "view";
      resizing := None;
    }

    /** The mount effect: fills the cell table and the column widths. */
    method Mount()
      modifies this`cells, this`columnWidths
      ensures InitialCells(cells) && InitialWidths(columnWidths)
    {
      cells, columnWidths := InitialTables();
    }

    /** `handleCellChange`: writes the cell locally and emits `cellUpdate`
        with the key and the value and no sheet id. */
    method HandleCellChange(row: nat, col: nat, value: string) returns (out: LegacyRelay.Payload)
      modifies this`cells
      ensures cells == WithCell(old(cells), CellId(row, col), value)
      ensures out == LegacyRelay.Payload(None, CellId(row, col), value)
    {
      var cellId := CellId(row, col);
      cells := WithCell(cells, cellId, value);
      out := LegacyRelay.Payload(None, cellId, value);
    }

    /** The `cellUpdated` listener: writes the received key and value. */
    method OnCellUpdated(data: LegacyRelay.Payload)
      modifies this`cells
      ensures cells == WithCell(old(cells), data.cellId, data.value)
    {
      cells := WithCell(cells, data.cellId, data.value);
    }

    /** The share form's inputs. */
    method SetShareEmail(email: string)
      modifies this`shareEmail
      ensures shareEmail == email
    {
      shareEmail := email;
    }

    method SetShareAccess(access: string)
      modifies this`shareAccess
      ensures shareAccess == access
    {
      shareAccess := access;
    }

    /** `handleShare`: posts the form to the sheet's share route; `succeeded`
        is whether the request resolved. Only success clears the email. */
    method HandleShare(succeeded: bool) returns (req: ShareRequest)
      modifies this`shareEmail
      ensures req == ShareRequest(SharePath(id), old(shareEmail), shareAccess)
      ensures shareEmail == if succeeded then "" else old(shareEmail)
    {
      req := ShareRequest(SharePath(id), shareEmail, shareAccess);
      if succeeded {
        shareEmail := "";
      }
    }

    method HandleCellFocus(cellId: string)
      modifies this`activeCell
      ensures activeCell == Some(cellId)
    {
      activeCell := Some(cellId);
    }

    method HandleCellBlur()
      modifies this`activeCell
      ensures activeCell == None
    {
      activeCell := None;
    }

    /** `startResizing(col, e, isHeader)`, as in the current component. */
    method StartResizing(col: Option<nat>, clientX: int, clientY: int, isHeader: bool)
      requires isHeader || col.Some?
      modifies this`resizing
      ensures resizing == Some(Drag(col, clientX, clientY, WidthOf(columnWidths, col), headerHeight, isHeader))
      ensures WellFormedDrag(resizing)
    {
      resizing := Some(Drag(col, clientX, clientY, WidthOf(columnWidths, col), headerHeight, isHeader));
    }

    /** `handleMouseMove`: the layout after the move, as `MouseMove` gives it. */
    method HandleMouseMove(clientX: int, clientY: int)
      requires WellFormedDrag(resizing)
      modifies this`columnWidths, this`headerHeight
      ensures Layout(columnWidths, headerHeight) == MouseMove(resizing, Layout(old(columnWidths), old(headerHeight)), clientX, clientY)
    {
      if resizing.Some? {
        var drag := resizing.value;
        if drag.isHeader {
          headerHeight := DraggedHeight(drag.startHeight, drag.startY, clientY);
        } else {
          columnWidths := columnWidths[drag.col.value := DraggedWidth(drag.startWidth, drag.startX, clientX)];
        }
      }
    }

    method StopResizing()
      modifies this`resizing
      ensures resizing == None
    {
      resizing := None;
    }
  }
}
