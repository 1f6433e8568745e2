/** The records exchanged with the backend (frontend/src/types/api.ts). */
module ApiTypes {
  import opened Wrappers

  /** A group as the backend returns it; `company` and `description` may be null. */
  datatype OshiGroupResponse = OshiGroupResponse(
    id: int,
    userId: int,
    groupName: string,
    company: Option<string>,
    description: Option<string>,
    createdAt: string,
    updatedAt: string)

  /** Body of a create call; absent optional fields are not sent. */
  datatype CreateOshiGroupRequest = CreateOshiGroupRequest(
    groupName: string,
    company: Option<string>,
    description: Option<string>)

  /** Body of an update call, keyed by the group's id. */
  datatype UpdateOshiGroupRequest = UpdateOshiGroupRequest(
    groupId: int,
    groupName: string,
    company: Option<string>,
    description: Option<string>)

  /** The error body the backend's exception handler produces. */
  datatype ApiErrorResponse = ApiErrorResponse(
    status: int,
    message: string,
    errors: Option<map<string, string>>)
}
