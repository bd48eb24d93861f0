/**
 * Pulling the bucket to the local directory: `syncRemoteFiles` lists the bucket
 * and hands the listing to `downloadFile`, which fetches the objects one at a
 * time in listing order. The storage calls are not modelled: the listing reply
 * is a parameter, and whether the fetch of the object at index i succeeds is
 * the oracle `fetchOk(i)`.
 */
module Core {
  import opened Wrappers

  /** One entry of a bucket listing (`data.Contents`). */
  datatype ListedObject = ListedObject(key: string, eTag: string, size: nat, lastModified: string, storageClass: string)

  /** `Object.assign({}, cur, { isSuccess: true })`: a fresh copy of the entry with the success flag. */
  datatype DownloadedObject = DownloadedObject(entry: ListedObject, isSuccess: bool)

  /**
   * How the promise `downloadFile` returns ends: no promise at all for a falsy
   * list, resolved with the accumulated array when every fetch succeeded, or
   * pending forever after the first failed fetch, with the array as it then stood.
   */
  datatype DownloadOutcome =
    | NoListing
    | Resolved(data: seq<DownloadedObject>)
    | Pending(data: seq<DownloadedObject>, failedAt: nat)

  /** The index of the first fetch at or after `from` that fails, or `n` if none below `n` does. */
  function FirstFailure(n: nat, fetchOk: nat -> bool, from: nat): (f: nat)
    requires from <= n
    ensures from <= f <= n
    ensures forall i :: from <= i < f ==> fetchOk(i)
    ensures f < n ==> !fetchOk(f)
    decreases n - from
  {
    if from == n || !fetchOk(from) then from else FirstFailure(n, fetchOk, from + 1)
  }

  /** The entries of `items`, each copied with `isSuccess: true`. */
  function MarkSucceeded(items: seq<ListedObject>): seq<DownloadedObject>
  {
    seq(|items|, i requires 0 <= i < |items| => DownloadedObject(items[i], true))
  }

  /** What `downloadFile(list)` does, given which fetches succeed. */
  function Download(list: Option<seq<ListedObject>>, fetchOk: nat -> bool): DownloadOutcome
  {
    match list
    case None => NoListing
    case Some(items) =>
      var f := FirstFailure(|items|, fetchOk, 0);
      if f == |items| then Resolved(MarkSucceeded(items)) else Pending(MarkSucceeded(items[..f]), f)
  }

  /** How many fetches `downloadFile(list)` issues: up to and including the first that fails. */
  function FetchCount(list: Option<seq<ListedObject>>, fetchOk: nat -> bool): nat
  {
    match list
    case None => 0
    case Some(items) =>
      var f := FirstFailure(|items|, fetchOk, 0);
      if f == |items| then f else f + 1
  }

  /**
   * `downloadFile`: requests the entries one at a time in listing order, each
   * only after the previous one was fetched, pushing a flagged copy of every
   * fetched entry; `requested` lists the indices fetched, in request order.
   */
  method DownloadFile(list: Option<seq<ListedObject>>, fetchOk: nat -> bool)
    returns (outcome: DownloadOutcome, requested: seq<nat>)
    ensures outcome == Download(list, fetchOk)
    ensures |requested| == FetchCount(list, fetchOk)
    ensures forall i :: 0 <= i < |requested| ==> requested[i] == i
    ensures forall i :: 0 <= i < |requested| - 1 ==> fetchOk(requested[i])
  {
    requested := [];
    if list.None? {
      return NoListing, requested;
    }
    var items := list.value;
    var data: seq<DownloadedObject> := [];
    var i := 0;
    while i < |items|
      invariant 0 <= i <= |items|
      invariant forall j :: 0 <= j < i ==> fetchOk(j)
      invariant data == MarkSucceeded(items[..i])
      invariant |requested| == i && forall j :: 0 <= j < i ==> requested[j] == j
    {
      requested := requested + [i];
      if !fetchOk(i) {
        assert FirstFailure(|items|, fetchOk, 0) == i;
        return Pending(data, i), requested;
      }
      data := data + [DownloadedObject(items[i], true)];
      i := i + 1;
    }
    assert items[..i] == items;
    assert FirstFailure(|items|, fetchOk, 0) == |items|;
    outcome := Resolved(data);
  }

  /** `downloadFile` of a falsy list returns no promise and fetches nothing. */
  lemma DownloadWithoutListing(fetchOk: nat -> bool)
    ensures Download(None, fetchOk) == NoListing && FetchCount(None, fetchOk) == 0
  {
  }

  /**
   * The promise resolves exactly when every fetch succeeds, and then with one
   * flagged copy per entry, in listing order.
   */
  lemma DownloadResolves(items: seq<ListedObject>, fetchOk: nat -> bool)
    ensures Download(Some(items), fetchOk).Resolved? <==> forall i :: 0 <= i < |items| ==> fetchOk(i)
    ensures Download(Some(items), fetchOk).Resolved? ==>
      var data := Download(Some(items), fetchOk).data;
      |data| == |items| && FetchCount(Some(items), fetchOk) == |items|
      && forall i :: 0 <= i < |items| ==> data[i].entry == items[i] && data[i].isSuccess
  {
    var f := FirstFailure(|items|, fetchOk, 0);
    if f < |items| {
      assert !fetchOk(f);
    }
  }

  /**
   * When the fetch at `k` fails after all earlier ones succeeded, nothing after `k`
   * is fetched, the promise never settles, and the array holds exactly the
   * flagged copies of the entries before `k`.
   */
  lemma DownloadStopsAtFailure(items: seq<ListedObject>, fetchOk: nat -> bool, k: nat)
    requires k < |items| && !fetchOk(k)
    requires forall i :: 0 <= i < k ==> fetchOk(i)
    ensures FetchCount(Some(items), fetchOk) == k + 1
    ensures Download(Some(items), fetchOk) == Pending(MarkSucceeded(items[..k]), k)
    ensures |Download(Some(items), fetchOk).data| == k
    ensures forall i :: 0 <= i < k ==> Download(Some(items), fetchOk).data[i] == DownloadedObject(items[i], true)
  {
    var f := FirstFailure(|items|, fetchOk, 0);
    assert f == k;
  }

  // ---------------------------------------------------------------- syncRemoteFiles

  /** The reply to the bucket listing request: a transport error, or a response with its status code. */
  datatype BucketReply =
    | TransportError(error: string)
    | Listing(statusCode: int, contents: Option<seq<ListedObject>>)

  /** Why the `syncRemoteFiles` promise rejects: the transport error itself, or a fixed message. */
  datatype Rejection = ErrorValue(error: string) | Message(text: string)

  /** How the promise `syncRemoteFiles` returns ends; `Fulfilled(None)` is a resolution with `undefined`. */
  datatype SyncOutcome =
    | Fulfilled(value: Option<seq<DownloadedObject>>)
    | Rejected(reason: Rejection)
    | NeverSettles

  /** The message `syncRemoteFiles` rejects with when the listing status is not 200. */
  const ListingErrorMessage: string := "拉取远程文件错误!"

  /** `resolve(await downloadFile(contents))`: what the outer promise does once the download ends. */
  function Settle(download: DownloadOutcome): SyncOutcome
  {
    match download
    case NoListing => Fulfilled(None)
    case Resolved(data) => Fulfilled(Some(data))
    case Pending(_, _) => NeverSettles
  }

  /**
   * `syncRemoteFiles`: without a client it resolves with `undefined` at once; a
   * transport error rejects with that error; a non-200 status rejects with the
   * fixed message; a 200 listing downloads exactly `data.Contents`.
   */
  method SyncRemoteFiles(hasClient: bool, reply: BucketReply, fetchOk: nat -> bool)
    returns (outcome: SyncOutcome, requested: seq<nat>)
    ensures !hasClient ==> outcome == Fulfilled(None) && requested == []
    ensures hasClient && reply.TransportError? ==> outcome == Rejected(ErrorValue(reply.error)) && requested == []
    ensures hasClient && reply.Listing? && reply.statusCode != 200 ==>
      outcome == Rejected(Message(ListingErrorMessage)) && requested == []
    ensures hasClient && reply.Listing? && reply.statusCode == 200 ==>
      outcome == Settle(Download(reply.contents, fetchOk))
      && |requested| == FetchCount(reply.contents, fetchOk)
      && forall i :: 0 <= i < |requested| ==> requested[i] == i
  {
    requested := [];
    if !hasClient {
      return Fulfilled(None), requested;
    }
    match reply
    case TransportError(error) =>
      outcome := Rejected(ErrorValue(error));
    case Listing(statusCode, contents) =>
      if statusCode == 200 {
        var result;
        result, requested := DownloadFile(contents, fetchOk);
        outcome := Settle(result);
      } else {
        outcome := Rejected(Message(ListingErrorMessage));
      }
  }

  /**
   * `syncRemoteFiles` resolves with an array only after a 200 listing whose every
   * entry was fetched, and the array then has one flagged copy per entry, in order;
   * that array's length is the count the `sync-remote` command reports.
   */
  lemma SyncRemoteResolvedArray(hasClient: bool, reply: BucketReply, fetchOk: nat -> bool, data: seq<DownloadedObject>)
    requires hasClient && reply.Listing? && reply.statusCode == 200
    requires Settle(Download(reply.contents, fetchOk)) == Fulfilled(Some(data))
    ensures reply.contents.Some? && |data| == |reply.contents.value|
    ensures forall i :: 0 <= i < |data| ==> fetchOk(i) && data[i] == DownloadedObject(reply.contents.value[i], true)
  {
    var items := reply.contents.value;
    DownloadResolves(items, fetchOk);
  }
}
