/** The survey endpoint: `POST` validates a request and creates a survey record
    whose questions are kept as a JSON string; `GET` lists the caller's surveys,
    newest first, with the questions parsed back. The database table is a
    sequence of records held by `SurveyStore`. */
module SurveysApi {
  import opened Options
  import opened Json

  /** A signed-in session, reduced to the id of its user. */
  datatype Session = Session(userId: string)

  datatype SurveyRecord = SurveyRecord(
    id: string, userId: string, companyId: Json, questions: string,
    status: string, createdAt: nat, updatedAt: nat)

  /** A listed survey: its record, with the questions parsed. */
  datatype ListedSurvey = ListedSurvey(record: SurveyRecord, questions: Json)

  datatype CreatedSurvey = CreatedSurvey(id: string, questions: seq<Json>, status: string, createdAt: nat)

  datatype PostResponse =
    | Created(uuid: string, survey: CreatedSurvey, message: string)
    | PostError(status: nat, error: string)

  datatype GetResponse =
    | SurveyList(surveys: seq<ListedSurvey>)
    | GetError(status: nat, error: string)

  /** The outcome of `POST`'s checks. */
  datatype Validation =
    | Reject(status: nat, error: string)
    | Accept(userId: string, questions: seq<Json>, companyId: Json)

  /** `POST`'s checks in their order: the session, then a readable body, then
      a non-empty questions array, then a company id. `body` is `None` when the
      request body is not JSON. */
  function ValidatePost(session: Option<Session>, body: Option<Json>): (r: Validation)
    // no session: 401, whatever the body
    ensures session.None? <==> r == Reject(401, "Unauthorized")
    // a body that cannot be read or destructured fails as a server error
    ensures r == Reject(500, "Internal server error") <==> session.Some? && (body.None? || body.value.JNull?)
    // questions are checked before the company id
    ensures r == Reject(400, "Questions are required") <==>
              session.Some? && body.Some? && !body.value.JNull?
              && !(Property(body.value, "questions").value.JArr?
                   && |Property(body.value, "questions").value.items| > 0)
    ensures r == Reject(400, "Company ID is required") <==>
              session.Some? && body.Some? && !body.value.JNull?
              && Property(body.value, "questions").value.JArr?
              && |Property(body.value, "questions").value.items| > 0
              && !Truthy(Property(body.value, "companyId").value)
    // every signed-in request with a readable body, a non-empty questions
    // array and a truthy company id is accepted
    ensures r.Accept? <==>
              session.Some? && body.Some? && !body.value.JNull?
              && Property(body.value, "questions").value.JArr?
              && |Property(body.value, "questions").value.items| > 0
              && Truthy(Property(body.value, "companyId").value)
    ensures r.Accept? ==>
              session == Some(Session(r.userId)) && body.Some?
              && Property(body.value, "questions") == Some(JArr(r.questions)) && |r.questions| > 0
              && Property(body.value, "companyId") == Some(r.companyId) && Truthy(r.companyId)
  {
    if session.None? then Reject(401, "Unauthorized")
    else if body.None? || body.value.JNull? then Reject(500, "Internal server error")
    else
      var questions := Property(body.value, "questions").value;
      var companyId := Property(body.value, "companyId").value;
      if !questions.JArr? || |questions.items| == 0 then Reject(400, "Questions are required")
      else if !Truthy(companyId) then Reject(400, "Company ID is required")
      else Accept(session.value.userId, questions.items, companyId)
  }

  /** The record `POST` creates. */
  function NewRecord(id: string, userId: string, questions: seq<Json>, companyId: Json, now: nat): (r: SurveyRecord)
    ensures r.id == id && r.userId == userId && r.companyId == companyId
    ensures r.status == "active" && r.createdAt == now && r.updatedAt == now
    ensures ParseJson(r.questions) == Some(JArr(questions))
  {
    ParseJsonStringify(JArr(questions));
    SurveyRecord(id, userId, companyId, Stringify(JArr(questions)), "active", now, now)
  }

  /** The records of one user, in store order. */
  function Mine(records: seq<SurveyRecord>, userId: string): (r: seq<SurveyRecord>)
    ensures forall x :: x in r ==> x.userId == userId
    ensures forall x :: multiset(r)[x] == if x.userId == userId then multiset(records)[x] else 0
  {
    if |records| == 0 then []
    else
      var rest := Mine(records[1..], userId);
      assert records == [records[0]] + records[1..];
      if records[0].userId == userId then [records[0]] + rest else rest
  }

  /** Each record is at least as new as the one after it. */
  predicate NewestFirst(rs: seq<SurveyRecord>) {
    forall i :: 0 < i < |rs| ==> rs[i - 1].createdAt >= rs[i].createdAt
  }

  /** Inserts `x` into a newest-first list, after the strictly newer records
      and before the records no newer than it. */
  function Insert(x: SurveyRecord, rs: seq<SurveyRecord>): (r: seq<SurveyRecord>)
    ensures |r| == |rs| + 1
    ensures r[0] == x || (|rs| > 0 && r[0] == rs[0])
  {
    if |rs| == 0 || rs[0].createdAt <= x.createdAt then [x] + rs
    else [rs[0]] + Insert(x, rs[1..])
  }

  lemma {:induction false} InsertCount(x: SurveyRecord, rs: seq<SurveyRecord>)
    ensures multiset(Insert(x, rs)) == multiset(rs) + multiset{x}
  {
    if !(|rs| == 0 || rs[0].createdAt <= x.createdAt) {
      InsertCount(x, rs[1..]);
      assert rs == [rs[0]] + rs[1..];
    }
  }

  lemma {:induction false} InsertSorted(x: SurveyRecord, rs: seq<SurveyRecord>)
    requires NewestFirst(rs)
    ensures NewestFirst(Insert(x, rs))
  {
    if |rs| == 0 || rs[0].createdAt <= x.createdAt {
      var r := [x] + rs;
      forall i | 0 < i < |r| ensures r[i - 1].createdAt >= r[i].createdAt {
        if i > 1 { assert r[i - 1] == rs[i - 2] && r[i] == rs[i - 1]; }
      }
    } else {
      var tail := rs[1..];
      InsertSorted(x, tail);
      var ins := Insert(x, tail);
      var r := [rs[0]] + ins;
      forall i | 0 < i < |r| ensures r[i - 1].createdAt >= r[i].createdAt {
        if i > 1 { assert r[i - 1] == ins[i - 2] && r[i] == ins[i - 1]; }
      }
    }
  }

  /** `orderBy: { createdAt: "desc" }`, as an insertion sort that keeps records
      of equal age in store order. */
  function NewestFirstOrder(rs: seq<SurveyRecord>): seq<SurveyRecord> {
    if |rs| == 0 then [] else Insert(rs[0], NewestFirstOrder(rs[1..]))
  }

  /** Two records of equal age keep their store order. */
  lemma TiesKeepStoreOrder(a: SurveyRecord, b: SurveyRecord)
    requires a.createdAt == b.createdAt
    ensures NewestFirstOrder([a, b]) == [a, b]
  {
    assert [a, b][1..] == [b];
    assert NewestFirstOrder([b]) == [b];
  }

  /** The ordering is newest first and keeps every record exactly once. */
  lemma {:induction false} NewestFirstOrderFacts(rs: seq<SurveyRecord>)
    ensures NewestFirst(NewestFirstOrder(rs))
    ensures multiset(NewestFirstOrder(rs)) == multiset(rs)
  {
    if |rs| > 0 {
      NewestFirstOrderFacts(rs[1..]);
      InsertSorted(rs[0], NewestFirstOrder(rs[1..]));
      InsertCount(rs[0], NewestFirstOrder(rs[1..]));
      assert rs == [rs[0]] + rs[1..];
    }
  }

  function RecordsOf(list: seq<ListedSurvey>): (r: seq<SurveyRecord>)
    ensures |r| == |list| && forall i :: 0 <= i < |list| ==> r[i] == list[i].record
  {
    seq(|list|, i requires 0 <= i < |list| => list[i].record)
  }

  /** `JSON.parse` of every record's questions, failing as a whole when one of
      them fails. */
  function ParseAll(rs: seq<SurveyRecord>): (r: Option<seq<ListedSurvey>>)
    ensures r.Some? <==> AllParse(rs)
    ensures r.Some? ==> RecordsOf(r.value) == rs
                        && forall i :: 0 <= i < |rs| ==> Some(r.value[i].questions) == ParseJson(rs[i].questions)
  {
    if |rs| == 0 then Some([])
    else
      match ParseJson(rs[0].questions)
      case None => None
      case Some(q) =>
        var rest := ParseAll(rs[1..]);
        assert forall i :: 1 <= i < |rs| ==> rs[i] == rs[1..][i - 1];
        if rest.None? then None else Some([ListedSurvey(rs[0], q)] + rest.value)
  }

  /** Every stored questions string parses. */
  predicate AllParse(records: seq<SurveyRecord>) {
    forall i :: 0 <= i < |records| ==> ParseJson(records[i].questions).Some?
  }

  /** What `GET` lists for one user: that user's records, newest first, with
      their questions parsed. */
  function Listing(records: seq<SurveyRecord>, userId: string): Option<seq<ListedSurvey>> {
    ParseAll(NewestFirstOrder(Mine(records, userId)))
  }

  lemma AllParseOfPermutation(rs: seq<SurveyRecord>, ps: seq<SurveyRecord>)
    requires multiset(ps) <= multiset(rs) && AllParse(rs)
    ensures AllParse(ps)
  {
    forall i | 0 <= i < |ps| ensures ParseJson(ps[i].questions).Some? {
      assert ps[i] in multiset(ps);
      assert ps[i] in multiset(rs);
      var k :| 0 <= k < |rs| && rs[k] == ps[i];
    }
  }

  /** The listing holds exactly the user's records, newest first, and it
      exists whenever every stored questions string parses. */
  lemma ListingFacts(records: seq<SurveyRecord>, userId: string)
    ensures AllParse(records) ==> Listing(records, userId).Some?
    ensures Listing(records, userId).Some? ==>
              var listed := RecordsOf(Listing(records, userId).value);
              multiset(listed) == multiset(Mine(records, userId)) && NewestFirst(listed)
  {
    var mine := Mine(records, userId);
    NewestFirstOrderFacts(mine);
    if AllParse(records) {
      AllParseOfPermutation(records, mine);
      AllParseOfPermutation(mine, NewestFirstOrder(mine));
    }
  }

  /** A record that `POST` wrote shows up in its owner's listing, with the
      questions it was given. */
  lemma PostedIsListed(records: seq<SurveyRecord>, rec: SurveyRecord, questions: seq<Json>)
    requires AllParse(records) && rec in records
    requires ParseJson(rec.questions) == Some(JArr(questions))
    ensures Listing(records, rec.userId).Some?
    ensures ListedSurvey(rec, JArr(questions)) in Listing(records, rec.userId).value
  {
    var mine := Mine(records, rec.userId);
    var ordered := NewestFirstOrder(mine);
    NewestFirstOrderFacts(mine);
    AllParseOfPermutation(records, mine);
    AllParseOfPermutation(mine, ordered);
    assert rec in multiset(records);
    assert rec in multiset(ordered);
    var k :| 0 <= k < |ordered| && ordered[k] == rec;
    var list := ParseAll(ordered).value;
    assert RecordsOf(list)[k] == rec;
    assert Some(list[k].questions) == ParseJson(ordered[k].questions);
    assert list[k] == ListedSurvey(rec, JArr(questions));
  }

  class SurveyStore {
    var records: seq<SurveyRecord>

    /** Every survey in the store was written by `POST`, so its questions parse. */
    ghost predicate Valid()
      reads this
    {
      AllParse(records)
    }

    constructor ()
      ensures records == [] && Valid()
    {
      records := [];
    }

    /** `POST /api/surveys`: on success exactly one record is added, under the
        fresh id the response returns; on any rejection the store is unchanged. */
    method Post(session: Option<Session>, body: Option<Json>, freshId: string, now: nat) returns (r: PostResponse)
      requires Valid()
      modifies this
      ensures Valid()
      ensures var v := ValidatePost(session, body);
              if v.Reject? then
                r == PostError(v.status, v.error) && records == old(records)
              else
                records == old(records) + [NewRecord(freshId, v.userId, v.questions, v.companyId, now)]
                && r == Created(freshId, CreatedSurvey(freshId, v.questions, "active", now), "Survey created successfully")
      ensures r.Created? ==> ListedSurvey(records[|records| - 1], JArr(r.survey.questions)) in Get(session).surveys
    {
      var v := ValidatePost(session, body);
      if v.Reject? {
        return PostError(v.status, v.error);
      }
      var rec := NewRecord(freshId, v.userId, v.questions, v.companyId, now);
      records := records + [rec];
      r := Created(freshId, CreatedSurvey(freshId, v.questions, "active", now), "Survey created successfully");
      assert records[|records| - 1] == rec;
      PostedIsListed(records, rec, v.questions);
    }

    /** `GET /api/surveys`: the caller's surveys, newest first, questions parsed. */
    function Get(session: Option<Session>): (r: GetResponse)
      reads this
      ensures session.None? <==> r == GetError(401, "Unauthorized")
      ensures session.Some? && Valid() ==> r.SurveyList?
      ensures r.SurveyList? ==>
                session.Some?
                && multiset(RecordsOf(r.surveys)) == multiset(Mine(records, session.value.userId))
                && NewestFirst(RecordsOf(r.surveys))
      ensures r.SurveyList? ==> Listing(records, session.value.userId) == Some(r.surveys)
    {
      if session.None? then GetError(401, "Unauthorized")
      else
        ListingFacts(records, session.value.userId);
        match Listing(records, session.value.userId)
        case None => GetError(500, "Internal server error")
        case Some(list) => SurveyList(list)
    }
  }
}
