/**
 * A reference settings-sync store, the server side the client talks to, modelled
 * on RFC 7232: each key holds a version and a content; the entity tag of a key
 * is derived from its version; a GET whose `If-None-Match` names the current tag is
 * answered 304, a POST whose `If-Match` names another tag is answered 412, and an
 * accepted POST bumps the version. The client's code is not changed by this module:
 * the lemmas here apply the client's own request builders and response classifiers
 * against this store and state what a caller of `read` and `write` can rely on.
 * A key that was never written reads as version 0 with null content, and an
 * `If-Match` naming version 0's tag is accepted on it (RFC 7232 section 3.1 would
 * reject any `If-Match` there, since the key has no current representation).
 */
module ReferenceStore {
  import opened Wrappers
  import opened UserDataSync
  import opened UserDataSyncStoreService

  datatype Entry = Entry(version: nat, content: Option<string>)

  type Store = map<string, Entry>

  /** The entry a key currently holds. */
  function Current(s: Store, key: string): Entry
  {
    if key in s then s[key] else Entry(0, None)
  }

  /** The entity tag of a version: opaque to the client, non-empty, and distinct for
      distinct versions (its length gives the version away). */
  function Tag(version: nat): (t: string)
    ensures |t| == version + 1
  {
    seq(version + 1, _ => 'v')
  }

  /** How the store answers a request, and what it holds afterwards. */
  function Serve(s: Store, req: Request): (Store, Response)
  {
    var key := req.url.key;
    var e := Current(s, key);
    match req.kind
    case GET =>
      if IfNoneMatch in req.headers && req.headers[IfNoneMatch] == Tag(e.version) then
        (s, Response(NotModified, map[ETag := Tag(e.version)], Success(None)))
      else
        (s, Response(200, map[ETag := Tag(e.version)], Success(e.content)))
    case POST =>
      if IfMatch in req.headers && req.headers[IfMatch] != Tag(e.version) then
        (s, Response(PreconditionFailed, map[], Success(None)))
      else
        var next := Entry(e.version + 1, req.data);
        (s[key := next], Response(200, map[ETag := Tag(next.version)], Success(None)))
  }

  /** An enabled client's `read` against the store. */
  function ClientRead(s: Store, storeUrl: string, key: string, oldValue: Option<UserData>): Result<Option<UserData>, SyncError>
  {
    ReadResult(oldValue, Serve(s, ReadRequest(storeUrl, key, oldValue)).1)
  }

  /** An enabled client's `write` against the store: the store afterwards and the result. */
  function ClientWrite(s: Store, storeUrl: string, key: string, data: string, ref: Option<string>): (Store, Result<string, SyncError>)
  {
    var (s', res) := Serve(s, WriteRequest(storeUrl, key, data, ref));
    (s', WriteResult(res))
  }

  /**
   * Against an RFC 7232 store a read always succeeds with the current ref and is never
   * null: the store answers 304 only to a conditional GET, so the client's 304 branch
   * only runs when an old value was supplied. The old value comes back exactly when
   * its ref is current; otherwise the current content comes back.
   */
  lemma ReadReturnsCurrent(s: Store, storeUrl: string, key: string, oldValue: Option<UserData>)
    ensures var r := ClientRead(s, storeUrl, key, oldValue);
      r.Success? && r.value.Some? && r.value.value.ref == Tag(Current(s, key).version)
    ensures oldValue.Some? && oldValue.value.ref == Tag(Current(s, key).version) ==>
      ClientRead(s, storeUrl, key, oldValue) == Success(oldValue)
    ensures oldValue.None? || oldValue.value.ref != Tag(Current(s, key).version) ==>
      ClientRead(s, storeUrl, key, oldValue) == Success(Some(UserData(Tag(Current(s, key).version), Current(s, key).content)))
  {
  }

  /**
   * A write is accepted exactly when it claims no ref (null or empty) or the current
   * one. An accepted write stores the data under the next version and returns its
   * tag; a rejected write comes back Rejected and leaves the store as it was.
   */
  lemma WriteAcceptedIffRefCurrent(s: Store, storeUrl: string, key: string, data: string, ref: Option<string>)
    ensures var (s', r) := ClientWrite(s, storeUrl, key, data, ref);
      && (r.Success? <==> !Truthy(ref) || ref.value == Tag(Current(s, key).version))
      && (r.Success? ==>
            r.value == Tag(Current(s, key).version + 1)
            && s' == s[key := Entry(Current(s, key).version + 1, Some(data))])
      && (r.Failure? ==> r.error == UserDataSyncStoreError(NewDataExistsMessage, Rejected) && s' == s)
  {
  }

  /**
   * Read after write: after an accepted write, a fresh read returns the written data
   * under the returned ref, and a read that presents that ref and data is answered
   * from the cache with the same value.
   */
  lemma ReadAfterWrite(s: Store, storeUrl: string, key: string, data: string, ref: Option<string>)
    requires ClientWrite(s, storeUrl, key, data, ref).1.Success?
    ensures var (s', r) := ClientWrite(s, storeUrl, key, data, ref);
      var written := UserData(r.value, Some(data));
      && ClientRead(s', storeUrl, key, None) == Success(Some(written))
      && ClientRead(s', storeUrl, key, Some(written)) == Success(Some(written))
  {
  }

  /**
   * No lost update among writers that present the ref they read: two clients read
   * the same revision; once the first one's write is accepted, the second one's
   * write with the ref it read is Rejected and the store keeps the first one's data.
   * A write with a null or empty ref claims no revision and is not protected (see
   * UnconditionalWriteOverwrites); the client cannot ask for a create-only write,
   * since it never sends `If-None-Match: *`.
   */
  lemma NoLostUpdate(s: Store, storeUrl: string, key: string, first: string, second: string)
    ensures var seen := ClientRead(s, storeUrl, key, None).value.value;
      var (s1, r1) := ClientWrite(s, storeUrl, key, first, Some(seen.ref));
      var (s2, r2) := ClientWrite(s1, storeUrl, key, second, Some(seen.ref));
      && r1.Success?
      && r2 == Failure(UserDataSyncStoreError(NewDataExistsMessage, Rejected))
      && s2 == s1 && Current(s2, key).content == Some(first)
  {
  }

  /**
   * A write that claims no revision (a null or an empty ref) is accepted whatever the
   * store holds, so of two such writes in a row the second silently replaces the first.
   */
  lemma UnconditionalWriteOverwrites(s: Store, storeUrl: string, key: string, first: string, second: string, ref: Option<string>)
    requires !Truthy(ref)
    ensures var (s1, r1) := ClientWrite(s, storeUrl, key, first, ref);
      var (s2, r2) := ClientWrite(s1, storeUrl, key, second, ref);
      && r1.Success? && r2.Success?
      && Current(s2, key).content == Some(second)
  {
  }

  /** One client call, as a caller of IUserDataSyncStoreService makes it. */
  datatype Call =
    | ReadCall(key: string, oldValue: Option<UserData>)
    | WriteCall(key: string, data: string, ref: Option<string>)

  /** What the call returned. */
  datatype Outcome =
    | ReadOutcome(read: Result<Option<UserData>, SyncError>)
    | WriteOutcome(write: Result<string, SyncError>)

  /** One call against the store. */
  function Step(s: Store, storeUrl: string, call: Call): (Store, Outcome)
  {
    match call
    case ReadCall(key, oldValue) => (s, ReadOutcome(ClientRead(s, storeUrl, key, oldValue)))
    case WriteCall(key, data, ref) =>
      var (s', r) := ClientWrite(s, storeUrl, key, data, ref);
      (s', WriteOutcome(r))
  }

  /** A sequence of calls, one after another; one outcome per call, in order. */
  function Run(s: Store, storeUrl: string, calls: seq<Call>): (r: (Store, seq<Outcome>))
    ensures |r.1| == |calls|
  {
    if calls == [] then (s, [])
    else
      var (s1, outcomes) := Run(s, storeUrl, calls[..|calls| - 1]);
      var (s2, last) := Step(s1, storeUrl, calls[|calls| - 1]);
      (s2, outcomes + [last])
  }

  /** Whether a call was a write to `key` that the client saw accepted. */
  predicate AcceptedWrite(call: Call, outcome: Outcome, key: string)
  {
    call.WriteCall? && call.key == key && outcome.WriteOutcome? && outcome.write.Success?
  }

  /** How many of the calls were writes to `key` that the client saw accepted. */
  function AcceptedWrites(calls: seq<Call>, outcomes: seq<Outcome>, key: string): nat
    requires |calls| == |outcomes|
  {
    if calls == [] then 0
    else
      var n := |calls| - 1;
      AcceptedWrites(calls[..n], outcomes[..n], key) + if AcceptedWrite(calls[n], outcomes[n], key) then 1 else 0
  }

  /** The data of the last write to `key` that the client saw accepted, if any. */
  function LastAcceptedData(calls: seq<Call>, outcomes: seq<Outcome>, key: string): Option<string>
    requires |calls| == |outcomes|
  {
    if calls == [] then None
    else
      var n := |calls| - 1;
      if AcceptedWrite(calls[n], outcomes[n], key) then Some(calls[n].data)
      else LastAcceptedData(calls[..n], outcomes[..n], key)
  }

  /** One call changes `key`'s entry only when it is an accepted write to `key`. */
  lemma StepEffect(s: Store, storeUrl: string, call: Call, key: string)
    ensures var (s', outcome) := Step(s, storeUrl, call);
      Current(s', key) ==
        if AcceptedWrite(call, outcome, key) then Entry(Current(s, key).version + 1, Some(call.data))
        else Current(s, key)
  {
  }

  /**
   * Over any sequence of calls, a key's version grows by exactly the number of
   * writes to it the client saw accepted, and its content is the data of the last
   * of them: every change to the store is one the client was told about, and every
   * accepted write is counted.
   */
  lemma {:induction false} RunAccountsForEveryChange(s: Store, storeUrl: string, calls: seq<Call>, key: string)
    ensures var (s', outcomes) := Run(s, storeUrl, calls);
      && Current(s', key).version == Current(s, key).version + AcceptedWrites(calls, outcomes, key)
      && Current(s', key).content ==
           match LastAcceptedData(calls, outcomes, key)
           case Some(d) => Some(d)
           case None => Current(s, key).content
  {
    if calls != [] {
      var n := |calls| - 1;
      var (s1, prefixOutcomes) := Run(s, storeUrl, calls[..n]);
      RunAccountsForEveryChange(s, storeUrl, calls[..n], key);
      StepEffect(s1, storeUrl, calls[n], key);
      var (s', outcomes) := Run(s, storeUrl, calls);
      assert outcomes[..n] == prefixOutcomes;
    }
  }
}
