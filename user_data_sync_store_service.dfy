/**
 * The settings-sync store client
 * (src/vs/platform/userDataSync/common/userDataSyncStoreService.ts).
 *
 * The client reads and writes one text blob per key with HTTP conditional requests
 * (RFC 7232): a read carries `If-None-Match` with the cached ref and takes
 * `304 Not Modified` to mean "keep the cached value"; a write carries `If-Match`
 * with the expected ref and takes `412 Precondition Failed` to mean "someone else
 * wrote first". Both take the response `etag` as the new ref.
 *
 * The HTTP round trip is a parameter, a function from the request the client
 * builds to the response it gets back, or to the message of the error the request
 * was rejected with (a network failure). Joining the store URL with the key is kept
 * abstract as the pair of the two (Url).
 */
module UserDataSyncStoreService {
  import opened Wrappers
  import opened UserDataSync

  const IfNoneMatch := "If-None-Match"
  const IfMatch := "If-Match"
  const ContentType := "Content-Type"
  const TextPlain := "text/plain"
  /** Response header names arrive lower-cased. */
  const ETag := "etag"

  const NotModified := 304
  const PreconditionFailed := 412

  const NotConfiguredMessage := "No settings sync store url configured."
  const NoRefMessage := "Server did not return the ref"
  const NewDataExistsMessage := "New data exists"

  /** joinPath(URI.parse(storeUrl), key).toString(): determined by the store URL and the key. */
  datatype Url = Url(storeUrl: string, key: string)

  datatype RequestType = GET | POST

  datatype Request = Request(kind: RequestType, url: Url, data: Option<string>, headers: map<string, string>)

  /**
   * A response: its status, its headers, and what reading its body as text (`asText`)
   * gives: the text, null when there is none, or the reason the read was rejected with.
   */
  datatype Response = Response(statusCode: int, headers: map<string, string>, text: Result<Option<string>, string>)

  /** JavaScript truthiness of a `string | null | undefined`: present and not empty. */
  predicate Truthy(s: Option<string>)
  {
    s.Some? && s.value != ""
  }

  /** The response's `etag` header, if it has one. */
  function ResponseRef(res: Response): Option<string>
  {
    if ETag in res.headers then Some(res.headers[ETag]) else None
  }

  /**
   * The request `read` issues: a GET of storeUrl/key whose only header is
   * `If-None-Match: oldValue.ref`, present exactly when an old value is supplied
   * (even when that value's ref is empty).
   */
  function ReadRequest(storeUrl: string, key: string, oldValue: Option<UserData>): (r: Request)
    ensures r.kind == GET && r.url == Url(storeUrl, key) && r.data == None
    ensures r.headers.Keys == if oldValue.Some? then {IfNoneMatch} else {}
    ensures oldValue.Some? ==> r.headers[IfNoneMatch] == oldValue.value.ref
  {
    Request(GET, Url(storeUrl, key), None,
      if oldValue.Some? then map[IfNoneMatch := oldValue.value.ref] else map[])
  }

  /**
   * How `read` classifies the response. On 304 it hands back the old value, without
   * looking at the etag or the body; that value is null (None) when no old value
   * was supplied, though the declared result is a non-null IUserData. On any other
   * status it first fails with a plain error when the etag is missing or empty, and
   * only then reads the body: it returns the etag as the ref and the body as the
   * content, or fails with the reason reading the body was rejected with.
   */
  function ReadResult(oldValue: Option<UserData>, res: Response): (r: Result<Option<UserData>, SyncError>)
    ensures res.statusCode == NotModified ==> r == Success(oldValue)
    ensures res.statusCode != NotModified && Truthy(ResponseRef(res)) && res.text.Success? ==>
      r == Success(Some(UserData(ResponseRef(res).value, res.text.value)))
    ensures r.Failure? <==> res.statusCode != NotModified && (!Truthy(ResponseRef(res)) || res.text.Failure?)
    ensures res.statusCode != NotModified && !Truthy(ResponseRef(res)) ==> r == Failure(PlainError(NoRefMessage))
    ensures res.statusCode != NotModified && Truthy(ResponseRef(res)) && res.text.Failure? ==>
      r == Failure(PlainError(res.text.error))
    ensures r == Success(None) <==> res.statusCode == NotModified && oldValue.None?
  {
    if res.statusCode == NotModified then Success(oldValue)
    else
      var ref := ResponseRef(res);
      if !Truthy(ref) then Failure(PlainError(NoRefMessage))
      else match res.text
        case Failure(reason) => Failure(PlainError(reason))
        case Success(content) => Success(Some(UserData(ref.value, content)))
  }

  /**
   * The request `write` issues: a POST of `data` to the same URL `read` uses, always
   * with `Content-Type: text/plain`, and with `If-Match: ref` exactly when `ref` is
   * neither null nor empty.
   */
  function WriteRequest(storeUrl: string, key: string, data: string, ref: Option<string>): (r: Request)
    ensures r.kind == POST && r.url == ReadRequest(storeUrl, key, None).url && r.data == Some(data)
    ensures r.headers.Keys == if Truthy(ref) then {ContentType, IfMatch} else {ContentType}
    ensures r.headers[ContentType] == TextPlain
    ensures Truthy(ref) ==> r.headers[IfMatch] == ref.value
  {
    var headers := map[ContentType := TextPlain];
    Request(POST, Url(storeUrl, key), Some(data),
      if Truthy(ref) then headers[IfMatch := ref.value] else headers)
  }

  /**
   * How `write` classifies the response. A 412 is the one response that yields a
   * UserDataSyncStoreError, and its code is Rejected; any other status yields the
   * etag as the new ref, or a plain, uncoded error when the etag is missing or empty.
   */
  function WriteResult(res: Response): (r: Result<string, SyncError>)
    ensures r == Failure(UserDataSyncStoreError(NewDataExistsMessage, Rejected)) <==> res.statusCode == PreconditionFailed
    ensures r.Failure? && ErrorCode(r.error).Some? <==> res.statusCode == PreconditionFailed
    ensures r.Success? <==> res.statusCode != PreconditionFailed && Truthy(ResponseRef(res))
    ensures r.Success? ==> r.value != "" && Some(r.value) == ResponseRef(res)
    ensures res.statusCode != PreconditionFailed && !Truthy(ResponseRef(res)) ==> r == Failure(PlainError(NoRefMessage))
  {
    if res.statusCode == PreconditionFailed then
      Failure(UserDataSyncStoreError(NewDataExistsMessage, Rejected))
    else
      var newRef := ResponseRef(res);
      if !Truthy(newRef) then Failure(PlainError(NoRefMessage))
      else Success(newRef.value)
  }

  /** A read is never rejected with a coded error: Rejected comes from writes only. */
  lemma ReadNeverRejected(oldValue: Option<UserData>, res: Response)
    ensures ReadResult(oldValue, res).Failure? ==> ErrorCode(ReadResult(oldValue, res).error) == None
  {
  }

  /** An empty ref is sent like a null one: the write becomes unconditional. */
  lemma WriteEmptyRefIsUnconditional(storeUrl: string, key: string, data: string)
    ensures WriteRequest(storeUrl, key, data, Some("")) == WriteRequest(storeUrl, key, data, None)
    ensures IfMatch !in WriteRequest(storeUrl, key, data, Some("")).headers
  {
  }

  /** UserDataSyncStoreService: the client, configured with the product's store URL. */
  class UserDataSyncStoreService {
    /** productService.settingsSyncStoreUrl, which may be undefined. */
    const settingsSyncStoreUrl: Option<string>

    /** _loggedIn: false from construction on; nothing in the client sets it. */
    var loggedIn: bool

    constructor (settingsSyncStoreUrl: Option<string>)
      ensures this.settingsSyncStoreUrl == settingsSyncStoreUrl
      ensures !loggedIn
    {
      this.settingsSyncStoreUrl := settingsSyncStoreUrl;
      loggedIn := false;
    }

    /** The `enabled` getter: a store URL is configured and is not empty. */
    predicate Enabled()
    {
      Truthy(settingsSyncStoreUrl)
    }

    /**
     * read(key, oldValue): when disabled, fails without issuing a request; otherwise
     * issues ReadRequest through `transport`, passes a rejected request on unchanged,
     * and classifies a reply with ReadResult.
     */
    method Read(key: string, oldValue: Option<UserData>, transport: Request -> Result<Response, string>)
      returns (sent: Option<Request>, result: Result<Option<UserData>, SyncError>)
      ensures sent.Some? <==> Enabled()
      ensures !Enabled() ==> result == Failure(PlainError(NotConfiguredMessage))
      ensures Enabled() ==> sent == Some(ReadRequest(settingsSyncStoreUrl.value, key, oldValue))
      ensures Enabled() && transport(sent.value).Failure? ==> result == Failure(PlainError(transport(sent.value).error))
      ensures Enabled() && transport(sent.value).Success? ==> result == ReadResult(oldValue, transport(sent.value).value)
    {
      if !Enabled() {
        return None, Failure(PlainError(NotConfiguredMessage));
      }
      var url := Url(settingsSyncStoreUrl.value, key);
      var headers: map<string, string> := map[];
      if oldValue.Some? {
        headers := headers[IfNoneMatch := oldValue.value.ref];
      }
      var request := Request(GET, url, None, headers);
      sent := Some(request);
      var reply := transport(request);
      if reply.Failure? {
        return sent, Failure(PlainError(reply.error));
      }
      var res := reply.value;
      if res.statusCode == NotModified {
        // No new value: hand back the old one, whatever it is.
        return sent, Success(oldValue);
      }
      var ref := ResponseRef(res);
      if !Truthy(ref) {
        return sent, Failure(PlainError(NoRefMessage));
      }
      match res.text {
        case Failure(reason) =>
          result := Failure(PlainError(reason));
        case Success(content) =>
          result := Success(Some(UserData(ref.value, content)));
      }
    }

    /**
     * write(key, data, ref): when disabled, fails without issuing a request; otherwise
     * issues WriteRequest through `transport`, passes a rejected request on unchanged,
     * and classifies a reply with WriteResult.
     */
    method Write(key: string, data: string, ref: Option<string>, transport: Request -> Result<Response, string>)
      returns (sent: Option<Request>, result: Result<string, SyncError>)
      ensures sent.Some? <==> Enabled()
      ensures !Enabled() ==> result == Failure(PlainError(NotConfiguredMessage))
      ensures Enabled() ==> sent == Some(WriteRequest(settingsSyncStoreUrl.value, key, data, ref))
      ensures Enabled() && transport(sent.value).Failure? ==> result == Failure(PlainError(transport(sent.value).error))
      ensures Enabled() && transport(sent.value).Success? ==> result == WriteResult(transport(sent.value).value)
    {
      if !Enabled() {
        return None, Failure(PlainError(NotConfiguredMessage));
      }
      var url := Url(settingsSyncStoreUrl.value, key);
      var headers: map<string, string> := map[ContentType := TextPlain];
      if Truthy(ref) {
        headers := headers[IfMatch := ref.value];
      }
      var request := Request(POST, url, Some(data), headers);
      sent := Some(request);
      var reply := transport(request);
      if reply.Failure? {
        return sent, Failure(PlainError(reply.error));
      }
      var res := reply.value;
      if res.statusCode == PreconditionFailed {
        // Newer data exists on the server.
        return sent, Failure(UserDataSyncStoreError(NewDataExistsMessage, Rejected));
      }
      var newRef := ResponseRef(res);
      if !Truthy(newRef) {
        return sent, Failure(PlainError(NoRefMessage));
      }
      result := Success(newRef.value);
    }
  }
}
