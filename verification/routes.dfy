/**
 * The handlers registered in server/routes.ts, as pure maps from the
 * outcome of the awaited store call to a status code and a JSON body.
 * `res.json` without `res.status` answers 200. The Express application,
 * the HTTP server and `console.log` are not modelled; whether the
 * `console.log` call of the inquiry handler throws is a parameter.
 */
module Routes {
  import opened Wrappers
  import opened Schema
  import Storage

  datatype Body = PuppyList(puppies: seq<Puppy>) | OnePuppy(puppy: Puppy) | Message(message: string)

  datatype Response = Response(status: nat, body: Body)

  const PuppiesFailed: string := "Failed to fetch puppies"
  const PuppyFailed: string := "Failed to fetch puppy"
  const PuppyNotFound: string := "Puppy not found"
  const InquiryAccepted: string := "Inquiry submitted successfully"
  const InquiryFailed: string := "Failed to submit inquiry"

  /** GET /api/puppies. */
  function ListPuppies(fetched: CallResult<seq<Puppy>>): (r: Response)
    ensures r.status == 200 <==> fetched.Returned?
    ensures fetched.Returned? ==> r.body == PuppyList(fetched.value)
    ensures fetched.Threw? ==> r == Response(500, Message(PuppiesFailed))
  {
    match fetched
    case Returned(puppies) => Response(200, PuppyList(puppies))
    case Threw => Response(500, Message(PuppiesFailed))
  }

  /** GET /api/puppies/:id. A record is an object and so always truthy: only undefined gives 404. */
  function ShowPuppy(fetched: CallResult<Option<Puppy>>): (r: Response)
    ensures r.status == 404 <==> fetched == Returned(None)
    ensures r.status == 404 ==> r.body == Message(PuppyNotFound)
    ensures r.status == 200 <==> fetched.Returned? && fetched.value.Some?
    ensures r.status == 200 ==> r.body == OnePuppy(fetched.value.value)
    ensures fetched.Threw? ==> r == Response(500, Message(PuppyFailed))
  {
    match fetched
    case Returned(None) => Response(404, Message(PuppyNotFound))
    case Returned(Some(puppy)) => Response(200, OnePuppy(puppy))
    case Threw => Response(500, Message(PuppyFailed))
  }

  /** POST /api/inquiries: the inquiry is only logged; the store is not consulted. */
  function SubmitInquiry(logged: CallResult<()>): (r: Response)
    ensures r.status == 200 <==> logged.Returned?
    ensures r.status == 200 ==> r.body == Message(InquiryAccepted)
    ensures r.status != 200 ==> r == Response(500, Message(InquiryFailed))
  {
    match logged
    case Returned(_) => Response(200, Message(InquiryAccepted))
    case Threw => Response(500, Message(InquiryFailed))
  }

  /** The three registered routes; any other method or path reaches none of these handlers. */
  datatype Request = GetPuppies | GetPuppy(id: string) | PostInquiry(inquiry: string)

  /** A response together with the store as it is after the request. */
  datatype Exchange = Exchange(response: Response, store: Storage.Store)

  /**
   * One request served against the in-memory store, whose reads never
   * throw. No handler calls `createPuppy`, so the store is left as it was.
   */
  function Serve(s: Storage.Store, req: Request, logged: CallResult<()>): (x: Exchange)
    requires Storage.Valid(s)
    ensures x.store == s
    ensures req.GetPuppies? ==> x.response == Response(200, PuppyList(Storage.GetAllPuppies(s)))
    ensures req.GetPuppy? ==> (x.response.status == 404 <==> req.id !in s.puppies)
    ensures req.GetPuppy? && req.id in s.puppies ==> x.response == Response(200, OnePuppy(s.puppies[req.id]))
    ensures req.GetPuppy? && req.id !in s.puppies ==> x.response == Response(404, Message(PuppyNotFound))
    ensures req.PostInquiry? ==> x.response == SubmitInquiry(logged)
    ensures x.response.status == 500 ==> req.PostInquiry? && logged.Threw?
  {
    match req
    case GetPuppies => Exchange(ListPuppies(Returned(Storage.GetAllPuppies(s))), s)
    case GetPuppy(id) => Exchange(ShowPuppy(Returned(Storage.GetPuppy(s, id))), s)
    case PostInquiry(_) => Exchange(SubmitInquiry(logged), s)
  }

  /**
   * Serves requests one after another, each against the store the previous
   * one left; `logged[i]` is whether the `console.log` of request `i` throws.
   */
  function ServeAll(s: Storage.Store, reqs: seq<Request>, logged: seq<CallResult<()>>): (r: (seq<Response>, Storage.Store))
    requires Storage.Valid(s)
    requires |logged| == |reqs|
    ensures |r.0| == |reqs|
    ensures forall i :: 0 <= i < |reqs| ==> r.0[i] == Serve(s, reqs[i], logged[i]).response
    ensures r.1 == s
  {
    if |reqs| == 0 then ([], s)
    else
      var x := Serve(s, reqs[0], logged[0]);
      var rest := ServeAll(x.store, reqs[1..], logged[1..]);
      ([x.response] + rest.0, rest.1)
  }

  /**
   * The create-then-fetch scenario: a record created under a fresh id is
   * served by GET /api/puppies/:id as created, and ends the listing.
   */
  lemma CreatedPuppyIsServed(s: Storage.Store, ins: InsertPuppy, id: string, logged: CallResult<()>)
    requires Storage.Valid(s) && id !in s.puppies
    ensures var (t, q) := Storage.CreatePuppy(s, ins, id);
            Storage.Valid(t)
            && Serve(t, GetPuppy(q.id), logged).response == Response(200, OnePuppy(q))
            && Serve(t, GetPuppies, logged).response
               == Response(200, PuppyList(Storage.GetAllPuppies(s) + [q]))
  {
    Storage.CreateAppendsToListing(s, ins, id);
  }
}
