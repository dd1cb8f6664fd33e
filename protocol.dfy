/** The socket events exchanged between the spreadsheet clients and the
    collaboration hub. Payload values are carried as strings; a field that a
    client leaves out of its payload is `None`. */
module Protocol {
  import opened Wrappers

  type SheetId = string
  type UserId = string
  type Name = string

  /** `joinSpreadsheet` as the hub destructures it: `{ spreadsheetId, userId, username }`. */
  datatype JoinRequest = JoinRequest(spreadsheetId: SheetId, userId: UserId, username: Option<Name>)

  /** `updateCursor`: `{ spreadsheetId, position }`; the position is forwarded as it came. */
  datatype CursorRequest = CursorRequest(spreadsheetId: SheetId, position: string)

  /** `cellUpdate`: `{ spreadsheetId, cellId, value }`. */
  datatype CellEdit = CellEdit(spreadsheetId: SheetId, cellId: string, value: string)

  /** The four events the hub emits. */
  datatype OutEvent =
    | UserJoined(userId: UserId, username: Option<Name>)
    | CursorMoved(userId: UserId, username: Option<Name>, position: string)
    | CellUpdated(userId: UserId, username: Option<Name>, cellId: string, value: string)
    | UserLeft(userId: UserId, username: Option<Name>)
}
