/**
 * The member endpoints of backend/pkg/handler/members.go.
 *
 * `GetApiMembers` reads the documents of the "members" collection one by
 * one: a document that decodes becomes a summary (its `Id` falling back to
 * the document's own ID), one that does not decode is skipped, and the
 * first iterator error aborts the whole request with status 500.
 * `GetApiMembersId` maps the outcome of reading one document to a status.
 *
 * The database is not modelled: the iterator is given as the sequence of
 * what its successive `Next()` calls return, the end of the sequence
 * standing for `iterator.Done`, and a single read is given as its outcome.
 */
module Members {
  import opened Common

  const StatusOK: int := 200
  const StatusNotFound: int := 404
  const StatusInternalServerError: int := 500

  /** The fields of a member document the endpoints use. */
  datatype MemberDetail = MemberDetail(id: string, name: string, nickname: string, roles: seq<string>, avatar: Option<string>)

  datatype MemberSummary = MemberSummary(id: string, name: string, nickname: string, roles: seq<string>, avatar: Option<string>)

  /** The outcome of `doc.DataTo(&d)`. */
  datatype Decoded = Decoded(detail: MemberDetail) | DecodeError(message: string)

  /** What one `iter.Next()` returns before `iterator.Done`: an error, or a document with its ID. */
  datatype IterItem = IterError(message: string) | Document(refId: string, data: Decoded)

  datatype Body = Summaries(items: seq<MemberSummary>) | Detail(detail: MemberDetail) | ErrorBody(error: string)

  datatype Response = Response(status: int, body: Body)

  /** `if d.Id == "" { d.Id = doc.Ref.ID }`. */
  function WithIdFallback(d: MemberDetail, refId: string): (r: MemberDetail)
    ensures d.id != "" ==> r == d
    ensures d.id == "" ==> r == d.(id := refId)
    ensures refId != "" ==> r.id != ""
  {
    if d.id == "" then d.(id := refId) else d
  }

  /** The summary of a decoded document: its ID (after the fallback), name, nickname, roles and avatar. */
  function Summarize(d: MemberDetail): (s: MemberSummary)
    ensures s.id == d.id && s.name == d.name && s.nickname == d.nickname
    ensures s.roles == d.roles && s.avatar == d.avatar
  {
    MemberSummary(d.id, d.name, d.nickname, d.roles, d.avatar)
  }

  /** The outcome of reading the whole collection: the summaries, or the first error. */
  datatype Listing = Listed(summaries: seq<MemberSummary>) | Aborted(error: string)

  /** `Listing` `l` with `out` put in front of its summaries. */
  function Prefixed(out: seq<MemberSummary>, l: Listing): Listing
  {
    match l
    case Listed(s) => Listed(out + s)
    case Aborted(m) => l
  }

  /** The specification of the loop: what reading `items` from the start yields. */
  function ListFrom(items: seq<IterItem>): (r: Listing)
    ensures r.Listed? ==> |r.summaries| <= |items|
  {
    if items == [] then Listed([])
    else
      match items[0]
      case IterError(m) => Aborted(m)
      case Document(_, DecodeError(_)) => ListFrom(items[1..])
      case Document(ref, Decoded(d)) => Prefixed([Summarize(WithIdFallback(d, ref))], ListFrom(items[1..]))
  }

  /** The response for a listing: 200 with the (possibly empty) array, or 500 with the error. */
  function ListResponse(l: Listing): (r: Response)
    ensures r.status == StatusOK <==> l.Listed?
    ensures r.status == StatusInternalServerError <==> l.Aborted?
  {
    match l
    case Listed(s) => Response(StatusOK, Summaries(s))
    case Aborted(m) => Response(StatusInternalServerError, ErrorBody(m))
  }

  /** `GetApiMembers`: the loop over the iterator, with its `continue`, `break` and early return. */
  method GetApiMembers(items: seq<IterItem>) returns (resp: Response)
    ensures resp == ListResponse(ListFrom(items))
  {
    var out: seq<MemberSummary> := [];
    var i := 0;
    while i < |items|
      invariant 0 <= i <= |items|
      invariant ListFrom(items) == Prefixed(out, ListFrom(items[i..]))
    {
      assert items[i..][0] == items[i] && items[i..][1..] == items[i + 1..];
      match items[i] {
        case IterError(m) =>
          assert ListFrom(items[i..]) == Aborted(m);
          resp := Response(StatusInternalServerError, ErrorBody(m));
          return;
        case Document(ref, data) =>
          match data {
            case Decoded(detail) =>
              var d := detail;
              if d.id == "" {
                d := d.(id := ref);
              }
              out := out + [Summarize(d)];
            case DecodeError(_) =>
          }
      }
      i := i + 1;
    }
    assert items[i..] == [] && out + [] == out;
    resp := Response(StatusOK, Summaries(out));
  }

  predicate HasError(items: seq<IterItem>)
  {
    exists i :: 0 <= i < |items| && items[i].IterError?
  }

  /**
   * The listing is aborted iff some item is an iterator error, and then
   * it carries the message of the first one.
   */
  lemma {:induction false} AbortedIffError(items: seq<IterItem>)
    ensures ListFrom(items).Aborted? <==> HasError(items)
    ensures ListFrom(items).Aborted? ==>
      exists i :: 0 <= i < |items| && items[i] == IterError(ListFrom(items).error) &&
        forall j :: 0 <= j < i ==> !items[j].IterError?
  {
    if items != [] {
      AbortedIffError(items[1..]);
      if HasError(items[1..]) {
        var i :| 0 <= i < |items[1..]| && items[1..][i].IterError?;
        assert items[i + 1].IterError?;
      }
      if HasError(items) && !items[0].IterError? {
        var i :| 0 <= i < |items| && items[i].IterError?;
        assert items[1..][i - 1].IterError?;
      }
      if ListFrom(items).Aborted? && !items[0].IterError? {
        var i :| 0 <= i < |items[1..]| && items[1..][i] == IterError(ListFrom(items[1..]).error) &&
          forall j :: 0 <= j < i ==> !items[1..][j].IterError?;
        assert items[i + 1] == IterError(ListFrom(items).error);
        forall j | 0 <= j < i + 1 ensures !items[j].IterError? {
          if j > 0 { assert items[j] == items[1..][j - 1]; }
        }
      }
    }
  }

  /** Reading error-free items then more items: the summaries of the first part come first, in order. */
  lemma {:induction false} ListFromAppend(a: seq<IterItem>, b: seq<IterItem>)
    requires !HasError(a)
    ensures ListFrom(a).Listed?
    ensures ListFrom(a + b) == Prefixed(ListFrom(a).summaries, ListFrom(b))
  {
    if a == [] {
      assert a + b == b;
    } else {
      assert (a + b)[0] == a[0] && (a + b)[1..] == a[1..] + b;
      assert !HasError(a[1..]) by {
        forall i | 0 <= i < |a[1..]| ensures !a[1..][i].IterError? {
          assert a[1..][i] == a[i + 1];
        }
      }
      assert !a[0].IterError?;
      ListFromAppend(a[1..], b);
    }
  }

  /** One document: a decodable one gives exactly its summary, an undecodable one is skipped. */
  lemma OneDocument(ref: string, data: Decoded)
    ensures data.Decoded? ==> ListFrom([Document(ref, data)]) == Listed([Summarize(WithIdFallback(data.detail, ref))])
    ensures data.DecodeError? ==> ListFrom([Document(ref, data)]) == Listed([])
  {
    assert [Document(ref, data)][1..] == [];
  }

  /**
   * An undecodable document anywhere in the stream does not change the
   * response, whether or not an iterator error comes before it.
   */
  lemma {:induction false} SkipUndecodable(a: seq<IterItem>, ref: string, message: string, b: seq<IterItem>)
    ensures ListFrom(a + [Document(ref, DecodeError(message))] + b) == ListFrom(a + b)
  {
    var x := Document(ref, DecodeError(message));
    if a == [] {
      assert a + [x] + b == [x] + b && a + b == b;
      assert ([x] + b)[1..] == b;
    } else {
      assert (a + [x] + b)[0] == a[0] && (a + [x] + b)[1..] == a[1..] + [x] + b;
      assert (a + b)[0] == a[0] && (a + b)[1..] == a[1..] + b;
      SkipUndecodable(a[1..], ref, message, b);
    }
  }

  /** Every summary comes from a decodable document, its `Id` filled from the document ID when empty. */
  lemma {:induction false} SummariesFromDocuments(items: seq<IterItem>, s: MemberSummary)
    requires ListFrom(items).Listed? && s in ListFrom(items).summaries
    ensures exists i, ref, d ::
      (0 <= i < |items| && items[i] == Document(ref, Decoded(d)) && s == Summarize(WithIdFallback(d, ref)))
  {
    match items[0]
    case IterError(_) =>
    case Document(ref, DecodeError(_)) =>
      SummariesFromDocuments(items[1..], s);
      var i, ref', d :| 0 <= i < |items[1..]| && items[1..][i] == Document(ref', Decoded(d)) &&
        s == Summarize(WithIdFallback(d, ref'));
      assert items[i + 1] == Document(ref', Decoded(d));
    case Document(ref, Decoded(d)) =>
      if s != Summarize(WithIdFallback(d, ref)) {
        SummariesFromDocuments(items[1..], s);
        var i, ref', d' :| 0 <= i < |items[1..]| && items[1..][i] == Document(ref', Decoded(d')) &&
          s == Summarize(WithIdFallback(d', ref'));
        assert items[i + 1] == Document(ref', Decoded(d'));
      }
  }

  /** An empty collection gives 200 with an empty array, not an error. */
  lemma EmptyCollection()
    ensures ListResponse(ListFrom([])) == Response(StatusOK, Summaries([]))
  {
  }

  /** Why reading one document failed: Firestore's NotFound code, or any other error. */
  datatype GetError = NotFound | OtherError(message: string)

  /** The outcome of `Doc(id).Get(ctx)`: an error, or the snapshot's ID and decoded data. */
  datatype GetResult = GetFailed(err: GetError) | Got(refId: string, data: Decoded)

  const NotFoundMessage: string := "member not found"

  /** `GetApiMembersId`: the outcome of reading the document, mapped to a status and a body. */
  method GetApiMembersId(fetched: GetResult) returns (resp: Response)
    ensures resp.status == StatusNotFound <==> fetched == GetFailed(NotFound)
    ensures resp.status == StatusInternalServerError <==>
      (fetched.GetFailed? && fetched.err.OtherError?) || (fetched.Got? && fetched.data.DecodeError?)
    ensures resp.status == StatusOK <==> fetched.Got? && fetched.data.Decoded?
    ensures resp.status == StatusNotFound ==> resp.body == ErrorBody(NotFoundMessage)
    ensures fetched.GetFailed? && fetched.err.OtherError? ==> resp.body == ErrorBody(fetched.err.message)
    ensures fetched.Got? && fetched.data.DecodeError? ==> resp.body == ErrorBody(fetched.data.message)
    ensures resp.status == StatusOK ==> resp.body == Detail(WithIdFallback(fetched.data.detail, fetched.refId))
  {
    match fetched {
      case GetFailed(err) =>
        if err == NotFound {
          return Response(StatusNotFound, ErrorBody(NotFoundMessage));
        }
        return Response(StatusInternalServerError, ErrorBody(err.message));
      case Got(refId, data) =>
        if data.DecodeError? {
          return Response(StatusInternalServerError, ErrorBody(data.message));
        }
        var d := data.detail;
        if d.id == "" {
          d := d.(id := refId);
        }
        resp := Response(StatusOK, Detail(d));
    }
  }
}
