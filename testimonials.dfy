/** The testimonial store behind `/api/testimonials`: a process-wide list of
    customer testimonials with a moderation status. GET first adopts a
    client-held copy of the list when one is sent, then lists (optionally by
    status); POST appends a pending testimonial; PUT sets a status; DELETE
    filters by id. */
module TestimonialsApi {
  import opened Seqs
  import opened Api

  /** The moderation status, a closed three-value union in the source. */
  datatype Status = Pending | Approved | Rejected

  function StatusName(st: Status): string
  {
    match st
    case Pending => "pending"
    case Approved => "approved"
    case Rejected => "rejected"
  }

  /** `["pending", "approved", "rejected"].includes(s)`, giving the status
      named. */
  function ParseStatus(s: string): (r: Option<Status>)
    ensures forall st: Status :: r == Some(st) <==> StatusName(st) == s
  {
    if s == "pending" then Some(Pending)
    else if s == "approved" then Some(Approved)
    else if s == "rejected" then Some(Rejected)
    else None
  }

  datatype Testimonial = Testimonial(
    id: int,
    username: string,
    petName: string,
    message: string,
    status: Status,
    createdAt: string)

  /** The decoded JSON body of a POST; a missing field is "". Whatever
      status it carries is ignored. */
  datatype TestimonialBody = TestimonialBody(
    username: string,
    petName: string,
    message: string,
    status: string)

  /** The success body of POST and PUT: the testimonial concerned and the
      whole store after the change. */
  datatype Changed = Changed(testimonial: Testimonial, allTestimonials: seq<Testimonial>)

  /** The id of a testimonial, the key every lookup and delete goes by. */
  function TestimonialId(t: Testimonial): int
  {
    t.id
  }

  /** POST rejects a body whose username, petName or message is falsy. */
  predicate MissingRequired(body: TestimonialBody)
  {
    body.username == "" || body.petName == "" || body.message == ""
  }

  /** `loadTestimonialsFromStorage`: the client's list when the `stored`
      parameter decoded to an array, the current store otherwise. `stored`
      is None when the parameter is absent or empty, is not valid JSON, or is
      not an array. */
  function LoadFromStorage(stored: Option<seq<Testimonial>>, current: seq<Testimonial>): seq<Testimonial>
  {
    if stored.Some? then stored.value else current
  }

  /** The store after GET's sync step: replaced by the client's list only
      when that list is non-empty. */
  function Synced(current: seq<Testimonial>, stored: Option<seq<Testimonial>>): (r: seq<Testimonial>)
    ensures r != current ==> stored.Some? && |stored.value| > 0 && r == stored.value
    ensures stored.Some? && |stored.value| > 0 ==> r == stored.value
    ensures stored.None? || stored == Some([]) ==> r == current
  {
    var clientData := LoadFromStorage(stored, current);
    if stored.Some? && |clientData| > 0 then clientData else current
  }

  function HasStatusName(name: string): Testimonial -> bool
  {
    (t: Testimonial) => StatusName(t.status) == name
  }

  function HasStatus(st: Status): Testimonial -> bool
  {
    (t: Testimonial) => t.status == st
  }

  /** GET's answer: the store, or only the testimonials whose status is the
      one named by a non-empty `status` parameter. */
  function Listed(s: seq<Testimonial>, statusFilter: Option<string>): (r: seq<Testimonial>)
    ensures statusFilter.None? || statusFilter == Some("") ==> r == s
    ensures statusFilter.Some? && statusFilter.value != "" ==>
              (forall i :: 0 <= i < |r| ==> r[i] in s && StatusName(r[i].status) == statusFilter.value) &&
              (forall i :: 0 <= i < |s| && StatusName(s[i].status) == statusFilter.value ==> s[i] in r)
  {
    if statusFilter.Some? && statusFilter.value != "" then Filter(s, HasStatusName(statusFilter.value))
    else s
  }

  /** Filtering by a status's name is filtering by the status. */
  lemma ListedByName(s: seq<Testimonial>, st: Status)
    ensures Listed(s, Some(StatusName(st))) == Filter(s, HasStatus(st))
  {
    FilterCongruent(s, HasStatusName(StatusName(st)), HasStatus(st));
  }

  /** The three status lists split the store: every testimonial is listed
      under exactly one status. */
  lemma ListsPartitionStore(s: seq<Testimonial>)
    ensures multiset(Listed(s, Some("pending"))) + multiset(Listed(s, Some("approved")))
              + multiset(Listed(s, Some("rejected"))) == multiset(s)
    ensures |Listed(s, Some("pending"))| + |Listed(s, Some("approved"))|
              + |Listed(s, Some("rejected"))| == |s|
  {
    ListedByName(s, Pending);
    ListedByName(s, Approved);
    ListedByName(s, Rejected);
    FilterPartition3(s, HasStatus(Pending), HasStatus(Approved), HasStatus(Rejected));
  }

  /** Filtering keeps the store's order: the status list of a concatenation
      is the concatenation of the status lists. */
  lemma ListedKeepsOrder(a: seq<Testimonial>, b: seq<Testimonial>, statusFilter: Option<string>)
    ensures Listed(a + b, statusFilter) == Listed(a, statusFilter) + Listed(b, statusFilter)
  {
    if statusFilter.Some? && statusFilter.value != "" {
      FilterAppend(a, b, HasStatusName(statusFilter.value));
    }
  }

  /** Listing `[pending, approved, approved, rejected]` by "approved" gives
      the two approved testimonials in their original order. */
  lemma ApprovedListScenario(a: Testimonial, b: Testimonial, c: Testimonial, d: Testimonial)
    requires a.status == Pending && b.status == Approved && c.status == Approved && d.status == Rejected
    ensures Listed([a, b, c, d], Some("approved")) == [b, c]
  {
    var keep := HasStatusName("approved");
    assert [a, b, c, d][1..] == [b, c, d];
    assert [b, c, d][1..] == [c, d];
    assert [c, d][1..] == [d];
    assert [d][1..] == [];
    assert Filter([d], keep) == [];
    assert Filter([c, d], keep) == [c];
    assert Filter([b, c, d], keep) == [b, c];
  }

  /** The single sample testimonial the module starts with; its `createdAt`
      is the time the module was loaded. */
  function Seed(loadedAt: string): seq<Testimonial>
  {
    [Testimonial(1, "testuser123", "TITAN TRICERATOPS", "Pet nya bagus banget! Recommended seller!",
                 Pending, loadedAt)]
  }

  class TestimonialStore {
    var testimonials: seq<Testimonial>

    constructor (loadedAt: string)
      ensures testimonials == Seed(loadedAt)
    {
      testimonials := Seed(loadedAt);
    }

    /** GET: adopt the client's non-empty list, then list by status. */
    method List(stored: Option<seq<Testimonial>>, statusFilter: Option<string>) returns (r: seq<Testimonial>)
      modifies this
      ensures testimonials == Synced(old(testimonials), stored)
      ensures r == Listed(testimonials, statusFilter)
    {
      if stored.Some? {
        var clientData := LoadFromStorage(stored, testimonials);
        if |clientData| > 0 {
          testimonials := clientData;
        }
      }
      r := testimonials;
      if statusFilter.Some? && statusFilter.value != "" {
        r := Filter(testimonials, HasStatusName(statusFilter.value));
      }
    }

    /** POST: validate, assign `max(ids) + 1` (1 on an empty store), force
        status to pending, stamp the creation time, append. */
    method Create(body: TestimonialBody, now: string) returns (r: Reply<Changed>)
      modifies this
      ensures MissingRequired(body) ==> r == BadRequest && testimonials == old(testimonials)
      ensures !MissingRequired(body) ==>
                r.Ok? && testimonials == old(testimonials) + [r.value.testimonial] &&
                r.value.allTestimonials == testimonials
      ensures r.Ok? ==>
                var t := r.value.testimonial;
                t == Testimonial(NextId(Ids(old(testimonials), TestimonialId)), body.username, body.petName,
                                 body.message, Pending, now) &&
                forall u :: u in old(testimonials) ==> u.id < t.id
    {
      if MissingRequired(body) {
        return BadRequest;
      }
      var maxId := if |testimonials| > 0 then MaxId(Ids(testimonials, TestimonialId)) else 0;
      var created := Testimonial(maxId + 1, body.username, body.petName, body.message, Pending, now);
      testimonials := testimonials + [created];
      r := Ok(Changed(created, testimonials));
    }

    /** PUT: 400 unless both id and status are given and the status is one of
        the three names, 404 for an unknown id, otherwise only the status of
        the first testimonial with that id changes. */
    method SetStatus(id: Option<int>, status: Option<string>) returns (r: Reply<Changed>)
      modifies this
      ensures MissingId(id) || status.None? || status == Some("") || ParseStatus(status.value).None? ==>
                r == BadRequest && testimonials == old(testimonials)
      ensures !MissingId(id) && status.Some? && ParseStatus(status.value).Some? && id.value !in Ids(old(testimonials), TestimonialId) ==>
                r == NotFound && testimonials == old(testimonials)
      ensures !MissingId(id) && status.Some? && ParseStatus(status.value).Some? && id.value in Ids(old(testimonials), TestimonialId) ==>
                var i := FindIndex(old(testimonials), IdIs(TestimonialId, id.value));
                0 <= i < |old(testimonials)| &&
                testimonials == old(testimonials)[i := old(testimonials)[i].(status := ParseStatus(status.value).value)] &&
                r == Ok(Changed(testimonials[i], testimonials))
    {
      if MissingId(id) || status.None? || status.value == "" {
        return BadRequest;
      }
      var st := ParseStatus(status.value);
      if st.None? {
        return BadRequest;
      }
      var index := FindIndex(testimonials, IdIs(TestimonialId, id.value));
      if index == -1 {
        assert forall j :: 0 <= j < |testimonials| ==> Ids(testimonials, TestimonialId)[j] != id.value;
        return NotFound;
      }
      testimonials := testimonials[index := testimonials[index].(status := st.value)];
      r := Ok(Changed(testimonials[index], testimonials));
    }

    /** DELETE: 400 without an id; otherwise filter the id out and answer 404
        when the length did not change. The success body carries the store. */
    method Delete(id: Option<int>) returns (r: Reply<seq<Testimonial>>)
      modifies this
      ensures MissingId(id) ==> r == BadRequest && testimonials == old(testimonials)
      ensures !MissingId(id) && id.value !in Ids(old(testimonials), TestimonialId) ==>
                r == NotFound && testimonials == old(testimonials)
      ensures !MissingId(id) && id.value in Ids(old(testimonials), TestimonialId) ==>
                testimonials == Without(old(testimonials), TestimonialId, id.value) &&
                |testimonials| < |old(testimonials)| && r == Ok(testimonials)
    {
      if MissingId(id) {
        return BadRequest;
      }
      var initialLength := |testimonials|;
      WithoutShrinksIffPresent(testimonials, TestimonialId, id.value);
      testimonials := Without(testimonials, TestimonialId, id.value);
      if |testimonials| == initialLength {
        return NotFound;
      }
      r := Ok(testimonials);
    }
  }
}
