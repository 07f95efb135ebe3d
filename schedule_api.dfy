/** The scheduling service of `src/lib/api/schedule-api.ts`: translating session types
    both ways, mapping a backend session, and the create and update payloads. */
module ScheduleApi {
  import opened Wrappers
  import opened Json
  import opened Domain
  import ApiClient
  import Lists

  const SessionsEndpoint: string := "/scheduling/sessions/"

  /** The backend session; `session_type` stays a string because any value may arrive. */
  datatype BackendSession = BackendSession(
    id: string,
    title: string,
    staff: string,
    staffName: string,
    startTime: string,
    endTime: string,
    capacity: int,
    sessionType: string,
    meetingUrl: Option<string>,
    isFull: bool)

  /** The four backend session types. */
  const BackendTypes: seq<string> := ["physical", "virtual", "workshop", "open_gym"]

  /** `mapBackendSessionType`: unknown backend values fall back to a group class. */
  function MapBackendSessionType(backendType: string): (t: SessionType)
    ensures backendType == "virtual" <==> t == PersonalTraining
    ensures backendType == "workshop" <==> t == Workshop
    ensures backendType == "open_gym" <==> t == OpenGym
    ensures backendType !in BackendTypes ==> t == GroupClass
  {
    match backendType
    case "physical" => GroupClass
    case "virtual" => PersonalTraining
    case "workshop" => Workshop
    case "open_gym" => OpenGym
    case _ => GroupClass
  }

  /** `mapFrontendSessionType`. */
  function MapFrontendSessionType(t: SessionType): (b: string)
    ensures b in BackendTypes
    ensures MapBackendSessionType(b) == t
  {
    match t
    case PersonalTraining => "virtual"
    case Workshop => "workshop"
    case OpenGym => "open_gym"
    case GroupClass => "physical"
  }

  /** On the four backend values the translation is a bijection: going to the frontend
      and back is the identity. */
  lemma BackendRoundTrip(b: string)
    requires b in BackendTypes
    ensures MapFrontendSessionType(MapBackendSessionType(b)) == b
  {
  }

  /** Any other backend value is read as a group class and written back as `physical`. */
  lemma UnknownTypeBecomesPhysical(b: string)
    requires b !in BackendTypes
    ensures MapFrontendSessionType(MapBackendSessionType(b)) == "physical"
  {
  }

  /** `mapBackendSessionToSession`. The enrolled count is only an approximation: the
      capacity when the backend says full, 0 otherwise. */
  function MapBackendSessionToSession(b: BackendSession): (s: Session)
    ensures s.id == b.id && s.title == b.title && s.trainerId == b.staff
    ensures s.startTime == b.startTime && s.endTime == b.endTime && s.capacity == b.capacity
    ensures s.sessionType == MapBackendSessionType(b.sessionType)
    ensures s.trainerName != "" && (b.staffName != "" ==> s.trainerName == b.staffName)
    ensures s.enrolledCount == if b.isFull then b.capacity else 0
    ensures s.status == "full" <==> b.isFull
    ensures !b.isFull ==> s.status == "open"
    ensures s.location == "Online" <==> b.sessionType == "virtual"
    ensures b.sessionType != "virtual" ==> s.location == "Studio"
    ensures s.color.None?
  {
    Session(b.id, b.title, MapBackendSessionType(b.sessionType), b.staff,
            if b.staffName != "" then b.staffName else "TBD",
            b.startTime, b.endTime, b.capacity,
            if b.isFull then b.capacity else 0,
            if b.sessionType == "virtual" then "Online" else "Studio",
            if b.isFull then "full" else "open",
            None)
  }

  /** A mapped session never carries one of the declared `SessionStatus` values. */
  lemma MappedStatusUndeclared(b: BackendSession)
    ensures MapBackendSessionToSession(b).status !in SessionStatuses
  {
  }

  /** A mapped session with non-negative capacity has `0 <= enrolled <= capacity`. */
  lemma MappedEnrolmentBounded(b: BackendSession)
    requires b.capacity >= 0
    ensures 0 <= MapBackendSessionToSession(b).enrolledCount <= b.capacity
  {
  }

  /** The endpoint `fetchSessionsFromApi` calls; `week` holds the two day strings of the
      week's first day and of the day seven days later, when a week is asked for. */
  function ListEndpoint(week: Option<(string, string)>): (endpoint: string)
    ensures SessionsEndpoint <= endpoint
    ensures week.None? <==> endpoint == SessionsEndpoint
  {
    if week.None? then SessionsEndpoint
    else SessionsEndpoint + "?start_time__gte=" + week.value.0 + "&start_time__lt=" + week.value.1
  }

  /** `fetchSessionsFromApi`, from the list response. */
  function FetchSessions(response: ApiClient.ListResponse<BackendSession>): (sessions: seq<Session>)
    ensures |sessions| == |ApiClient.Results(response)|
    ensures forall i :: 0 <= i < |sessions| ==> sessions[i] == MapBackendSessionToSession(ApiClient.Results(response)[i])
  {
    Lists.Map(ApiClient.Results(response), MapBackendSessionToSession)
  }

  /** The two response shapes give the same sessions. */
  lemma ListShapesAgree(items: seq<BackendSession>, count: int, next: Option<string>, previous: Option<string>)
    ensures FetchSessions(ApiClient.Bare(items)) == FetchSessions(ApiClient.Envelope(count, next, previous, items))
  {
  }

  /** `fetchSessionFromApi`: null when the GET throws. */
  function FetchSession(response: Option<BackendSession>): (s: Option<Session>)
    ensures s.Some? <==> response.Some?
    ensures s.Some? ==> s.value == MapBackendSessionToSession(response.value)
  {
    if response.Some? then Some(MapBackendSessionToSession(response.value)) else None
  }

  function DetailEndpoint(id: string): string {
    SessionsEndpoint + id + "/"
  }

  /** The body `createSessionApi` posts. The location the form collects is not sent. */
  function CreatePayload(data: CreateSessionInput): (body: Json)
    ensures body.JObj?
    ensures body.fields.Keys == {"title", "staff", "start_time", "end_time", "capacity", "session_type"}
    ensures "location" !in body.fields
    ensures body.fields["title"] == JStr(data.title) && body.fields["staff"] == JStr(data.trainerId)
    ensures body.fields["start_time"] == JStr(data.startTime) && body.fields["end_time"] == JStr(data.endTime)
    ensures body.fields["capacity"] == JNum(data.capacity)
    ensures body.fields["session_type"] == JStr(MapFrontendSessionType(data.sessionType))
    ensures MapBackendSessionType(body.fields["session_type"].s) == data.sessionType
  {
    JObj(map[
      "title" := JStr(data.title),
      "staff" := JStr(data.trainerId),
      "start_time" := JStr(data.startTime),
      "end_time" := JStr(data.endTime),
      "capacity" := JNum(data.capacity),
      "session_type" := JStr(MapFrontendSessionType(data.sessionType))])
  }

  function CreateRequest(data: CreateSessionInput): ApiClient.Request {
    ApiClient.Request(ApiClient.Post, SessionsEndpoint, Some(CreatePayload(data)))
  }

  /** A backend that stores what was posted and echoes it back. */
  function Echo(id: string, body: Json, isFull: bool): BackendSession
    requires body.JObj? && body.fields.Keys >= {"title", "staff", "start_time", "end_time", "capacity", "session_type"}
    requires body.fields["capacity"].JNum?
  {
    BackendSession(id, ToJsString(body.fields["title"]), ToJsString(body.fields["staff"]), "",
                   ToJsString(body.fields["start_time"]), ToJsString(body.fields["end_time"]),
                   body.fields["capacity"].n, ToJsString(body.fields["session_type"]), None, isFull)
  }

  /** Creating a session and reading back what was stored keeps its title, trainer,
      times, capacity and type, but the location is recomputed from the type: a studio
      class entered as "Room 2" reads back as "Studio". */
  lemma {:induction false} CreateReadsBack(data: CreateSessionInput, id: string)
    ensures var s := MapBackendSessionToSession(Echo(id, CreatePayload(data), false));
            s.title == data.title && s.trainerId == data.trainerId && s.startTime == data.startTime
            && s.endTime == data.endTime && s.capacity == data.capacity && s.sessionType == data.sessionType
            && s.location == (if data.sessionType == PersonalTraining then "Online" else "Studio")
  {
    var body := CreatePayload(data);
    assert ToJsString(body.fields["session_type"]) == MapFrontendSessionType(data.sessionType);
  }

  /** The optional fields an update takes. */
  datatype UpdateSessionInput = UpdateSessionInput(
    title: Option<string>,
    startTime: Option<string>,
    endTime: Option<string>,
    capacity: Option<int>,
    trainerId: Option<string>,
    location: Option<string>,
    roomUrl: Option<string>)

  /** The body `updateSessionApi` patches: one key per defined field. */
  function UpdatePayload(data: UpdateSessionInput): (body: Json)
    ensures body.JObj?
    ensures body.fields.Keys <= {"title", "start_time", "end_time", "capacity", "staff", "meeting_url"}
    ensures "location" !in body.fields
    ensures ("title" in body.fields <==> data.title.Some?) && (data.title.Some? ==> body.fields["title"] == JStr(data.title.value))
    ensures ("start_time" in body.fields <==> data.startTime.Some?)
            && (data.startTime.Some? ==> body.fields["start_time"] == JStr(data.startTime.value))
    ensures ("end_time" in body.fields <==> data.endTime.Some?)
            && (data.endTime.Some? ==> body.fields["end_time"] == JStr(data.endTime.value))
    ensures ("capacity" in body.fields <==> data.capacity.Some?)
            && (data.capacity.Some? ==> body.fields["capacity"] == JNum(data.capacity.value))
    ensures ("staff" in body.fields <==> data.trainerId.Some?)
            && (data.trainerId.Some? ==> body.fields["staff"] == JStr(data.trainerId.value))
    ensures ("meeting_url" in body.fields <==> data.roomUrl.Some?)
            && (data.roomUrl.Some? ==> body.fields["meeting_url"] == JStr(data.roomUrl.value))
  {
    var p0: map<string, Json> := map[];
    var p1 := if data.title.Some? then p0["title" := JStr(data.title.value)] else p0;
    var p2 := if data.startTime.Some? then p1["start_time" := JStr(data.startTime.value)] else p1;
    var p3 := if data.endTime.Some? then p2["end_time" := JStr(data.endTime.value)] else p2;
    var p4 := if data.capacity.Some? then p3["capacity" := JNum(data.capacity.value)] else p3;
    var p5 := if data.trainerId.Some? then p4["staff" := JStr(data.trainerId.value)] else p4;
    var p6 := if data.roomUrl.Some? then p5["meeting_url" := JStr(data.roomUrl.value)] else p5;
    JObj(p6)
  }

  /** Changing only the location sends an empty patch. */
  lemma LocationOnlyUpdateIsEmpty(location: string)
    ensures UpdatePayload(UpdateSessionInput(None, None, None, None, None, Some(location), None)) == JObj(map[])
  {
  }

  function UpdateRequest(id: string, data: UpdateSessionInput): ApiClient.Request {
    ApiClient.Request(ApiClient.Patch, DetailEndpoint(id), Some(UpdatePayload(data)))
  }

  function DeleteRequest(id: string): ApiClient.Request {
    ApiClient.Request(ApiClient.Delete, DetailEndpoint(id), None)
  }
}
