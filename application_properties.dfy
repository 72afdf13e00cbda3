/** Properties that relate several requests: the create-then-lookup round
    trip, what a create does to later lookups, a sequence of creates, and the
    scenarios the repository's tests exercise. */
module ApplicationProperties {
  import opened Uuid
  import opened Application

  /** Appending a row changes the first match only when the email had none. */
  lemma {:induction false} FirstMatchAppend(entries: seq<Entry>, x: Entry, email: string)
    ensures FirstMatch(entries + [x], email) ==
      match FirstMatch(entries, email)
      case Some(k) => Some(k)
      case None => if x.email == email then Some(|entries|) else None
  {
    if entries != [] {
      assert (entries + [x])[1..] == entries[1..] + [x];
      FirstMatchAppend(entries[1..], x, email);
    }
  }

  /** A lookup after an append: an earlier row with the email still wins. */
  lemma LookupAfterAppend(entries: seq<Entry>, x: Entry, email: string)
    ensures Lookup(entries + [x], email) ==
      if FirstMatch(entries, email).Some? then Lookup(entries, email)
      else if x.email == email then Response(200, Verdict(true, x.blockedReason))
      else Response(200, Verdict(false, None))
  {
    FirstMatchAppend(entries, x, email);
    var k := FirstMatch(entries, email);
    if k.Some? {
      assert (entries + [x])[k.value] == entries[k.value];
    } else if x.email == email {
      assert (entries + [x])[|entries|] == x;
    }
  }

  /** After a successful create, a lookup of its email reports it blacklisted;
      the reason is the one just given unless an earlier row had that email,
      in which case the lookup answers as before. */
  lemma RoundTrip(entries: seq<Entry>, auth: Option<string>, data: Option<JsonObject>,
                  remoteAddr: Option<string>)
    ensures
      var o := Create(entries, auth, data, remoteAddr);
      o.response.status == 201 ==>
        data.Some? && Get(data.value, "email").Some? &&
        var email := Get(data.value, "email").value;
        Lookup(o.entries, email).body.blacklisted &&
        ((forall i :: 0 <= i < |entries| ==> entries[i].email != email) ==>
          Lookup(o.entries, email).body.blockedReason == Get(data.value, "blocked_reason")) &&
        ((exists i :: 0 <= i < |entries| && entries[i].email == email) ==>
          Lookup(o.entries, email) == Lookup(entries, email))
  {
    var v := Validate(data);
    if v.Accepted? {
      LookupAfterAppend(entries, NewEntry(entries, v, remoteAddr), v.email);
    }
  }

  /** An authorised POST that fails validation answers with the message of
      the first check it fails and stores nothing. */
  lemma CreateRejections(entries: seq<Entry>, data: Option<JsonObject>, remoteAddr: Option<string>)
    ensures !HasData(data) ==>
      Create(entries, Some(StaticToken), data, remoteAddr) ==
        Outcome(entries, Response(400, Message(NoDataMessage)))
    ensures HasData(data) && !HasRequiredFields(data.value) ==>
      Create(entries, Some(StaticToken), data, remoteAddr) ==
        Outcome(entries, Response(400, Message(FieldsMessage)))
    ensures HasData(data) && HasRequiredFields(data.value) &&
            !ValidUuid(Get(data.value, "app_uuid").value) ==>
      Create(entries, Some(StaticToken), data, remoteAddr) ==
        Outcome(entries, Response(400, Message(UuidMessage)))
  {
  }

  /** A create changes no lookup except that of the email it stores. */
  lemma CreateKeepsOtherLookups(entries: seq<Entry>, auth: Option<string>,
                                data: Option<JsonObject>, remoteAddr: Option<string>,
                                email: string)
    requires Create(entries, auth, data, remoteAddr).response.status != 201 ||
             Validate(data).email != email
    ensures Lookup(Create(entries, auth, data, remoteAddr).entries, email) == Lookup(entries, email)
  {
    var o := Create(entries, auth, data, remoteAddr);
    if o.response.status == 201 {
      LookupAfterAppend(entries, NewEntry(entries, Validate(data), remoteAddr), email);
    }
  }

  /** A POST /blacklists request: header, decoded body, peer address. */
  datatype PostRequest = PostRequest(auth: Option<string>, data: Option<JsonObject>,
                                     remoteAddr: Option<string>)

  /** The table after the requests have been handled one after another. */
  function Replay(entries: seq<Entry>, posts: seq<PostRequest>): seq<Entry>
    decreases |posts|
  {
    if posts == [] then entries
    else Replay(Create(entries, posts[0].auth, posts[0].data, posts[0].remoteAddr).entries, posts[1..])
  }

  /** True when the request would store a row for `email`. */
  predicate Stores(p: PostRequest, email: string) {
    p.auth == Some(StaticToken) && Validate(p.data).Accepted? && Validate(p.data).email == email
  }

  /** One POST keeps the old table as a prefix. */
  lemma CreateAppendOnly(entries: seq<Entry>, p: PostRequest)
    ensures |entries| <= |Create(entries, p.auth, p.data, p.remoteAddr).entries|
    ensures Create(entries, p.auth, p.data, p.remoteAddr).entries[..|entries|] == entries
  {
    var o := Create(entries, p.auth, p.data, p.remoteAddr);
    if o.response.status == 201 {
      assert o.entries[..|entries|] == entries;
    }
  }

  /** The prefix half of `ReplayAppendOnly`, by induction on the requests. */
  lemma {:induction false} ReplayPrefix(entries: seq<Entry>, posts: seq<PostRequest>)
    ensures |entries| <= |Replay(entries, posts)| && Replay(entries, posts)[..|entries|] == entries
    decreases |posts|
  {
    if posts != [] {
      var o := Create(entries, posts[0].auth, posts[0].data, posts[0].remoteAddr).entries;
      CreateAppendOnly(entries, posts[0]);
      ReplayPrefix(o, posts[1..]);
      var r := Replay(o, posts[1..]);
      assert Replay(entries, posts) == r;
      assert r[..|entries|] == r[..|o|][..|entries|];
    }
  }

  /** The invariant half of `ReplayAppendOnly`. */
  lemma {:induction false} ReplayWellFormed(entries: seq<Entry>, posts: seq<PostRequest>)
    requires WellFormed(entries)
    ensures WellFormed(Replay(entries, posts))
    decreases |posts|
  {
    if posts != [] {
      var o := Create(entries, posts[0].auth, posts[0].data, posts[0].remoteAddr).entries;
      ReplayWellFormed(o, posts[1..]);
    }
  }

  /** The table only grows and keeps its row invariant. */
  lemma ReplayAppendOnly(entries: seq<Entry>, posts: seq<PostRequest>)
    ensures |entries| <= |Replay(entries, posts)| && Replay(entries, posts)[..|entries|] == entries
    ensures WellFormed(entries) ==> WellFormed(Replay(entries, posts))
  {
    ReplayPrefix(entries, posts);
    if WellFormed(entries) {
      ReplayWellFormed(entries, posts);
    }
  }

  /** No request that does not store `email` changes what a lookup of
      `email` answers: an email that was never created stays not blacklisted
      however often it is asked for. */
  lemma {:induction false} ReplayKeepsLookup(entries: seq<Entry>, posts: seq<PostRequest>,
                                             email: string)
    requires forall i :: 0 <= i < |posts| ==> !Stores(posts[i], email)
    ensures Lookup(Replay(entries, posts), email) == Lookup(entries, email)
    decreases |posts|
  {
    if posts != [] {
      var p := posts[0];
      assert !Stores(p, email);
      CreateKeepsOtherLookups(entries, p.auth, p.data, p.remoteAddr, email);
      ReplayKeepsLookup(Create(entries, p.auth, p.data, p.remoteAddr).entries, posts[1..], email);
    }
  }

  // ------------------------------------------------- scenarios from the tests

  const TestUuidValue: string := "12345678-1234-5678-1234-567812345678"

  /** The application identifier the tests use is accepted. */
  lemma TestUuidIsValid()
    ensures ValidUuid(TestUuidValue)
  {
    var s := TestUuidValue;
    forall i | 0 <= i < 36
      ensures if i == 8 || i == 13 || i == 18 || i == 23 then s[i] == '-' else IsHexDigit(s[i])
    {
    }
    CanonicalIsValid(s);
  }

  /** "not-a-valid-uuid" is too short to hold 32 hex digits. */
  lemma NotAValidUuidIsRejected()
    ensures !ValidUuid("not-a-valid-uuid")
  {
  }

  /** The body of the tests' successful POST, for a given app_uuid. */
  function SpamBody(appUuid: string): JsonObject {
    map["email" := Some("test@example.com"), "app_uuid" := Some(appUuid),
        "blocked_reason" := Some("Spam activity")]
  }

  /** What `data.get` reads from that body. */
  lemma SpamBodyFields(appUuid: string)
    ensures HasData(Some(SpamBody(appUuid)))
    ensures Get(SpamBody(appUuid), "email") == Some("test@example.com")
    ensures Get(SpamBody(appUuid), "app_uuid") == Some(appUuid)
    ensures Get(SpamBody(appUuid), "blocked_reason") == Some("Spam activity")
  {
    assert "email" in SpamBody(appUuid);
  }

  /** That body is accepted with its three fields whenever its app_uuid
      passes the UUID check. */
  lemma SpamBodyAccepted(appUuid: string)
    requires ValidUuid(appUuid)
    ensures Validate(Some(SpamBody(appUuid))) == Accepted("test@example.com", appUuid, Some("Spam activity"))
  {
    SpamBodyFields(appUuid);
  }

  /** Create "test@example.com" with reason "Spam activity" in a table that
      does not hold that email yet, then look it up. */
  lemma CreateThenLookupScenario(entries: seq<Entry>, remoteAddr: Option<string>)
    requires forall i :: 0 <= i < |entries| ==> entries[i].email != "test@example.com"
    ensures
      var o := Create(entries, Some(StaticToken), Some(SpamBody(TestUuidValue)), remoteAddr);
      o.response == Response(201, Message(CreatedMessage)) &&
      Lookup(o.entries, "test@example.com") == Response(200, Verdict(true, Some("Spam activity")))
  {
    TestUuidIsValid();
    SpamBodyAccepted(TestUuidValue);
    RoundTrip(entries, Some(StaticToken), Some(SpamBody(TestUuidValue)), remoteAddr);
  }

  /** A body with only one of the two required fields is refused, whatever
      the table holds. */
  lemma MissingFieldScenarios(entries: seq<Entry>, remoteAddr: Option<string>)
    ensures
      var onlyEmail := map["email" := Some("test@example.com")];
      Create(entries, Some(StaticToken), Some(onlyEmail), remoteAddr) ==
        Outcome(entries, Response(400, Message(FieldsMessage)))
    ensures
      var onlyUuid := map["app_uuid" := Some(TestUuidValue)];
      Create(entries, Some(StaticToken), Some(onlyUuid), remoteAddr) ==
        Outcome(entries, Response(400, Message(FieldsMessage)))
  {
    var onlyEmail := map["email" := Some("test@example.com")];
    assert Get(onlyEmail, "app_uuid") == None;
    var onlyUuid := map["app_uuid" := Some(TestUuidValue)];
    assert Get(onlyUuid, "email") == None;
  }

  /** An ill-formed app_uuid is refused and nothing is stored. */
  lemma InvalidUuidScenario(entries: seq<Entry>, remoteAddr: Option<string>)
    ensures
      var body := map["email" := Some("test@example.com"), "app_uuid" := Some("not-a-valid-uuid")];
      Create(entries, Some(StaticToken), Some(body), remoteAddr) ==
        Outcome(entries, Response(400, Message(UuidMessage)))
  {
    var body := map["email" := Some("test@example.com"), "app_uuid" := Some("not-a-valid-uuid")];
    assert Get(body, "email") == Some("test@example.com");
    assert Get(body, "app_uuid") == Some("not-a-valid-uuid");
    NotAValidUuidIsRejected();
  }

  /** The tests' session against a fresh store, for any canonical app_uuid:
      a POST without the header is refused and leaves the table empty, the
      authorised POST is stored, and the GET finds it. */
  method SessionScenario(appUuid: string)
    returns (denied: Response, tableAfterDenied: seq<Entry>, created: Response, found: Response)
    requires IsCanonical(appUuid)
    ensures denied == Response(401, Message(TokenMessage))
    ensures tableAfterDenied == []
    ensures created == Response(201, Message(CreatedMessage))
    ensures found == Response(200, Verdict(true, Some("Spam activity")))
  {
    CanonicalIsValid(appUuid);
    SpamBodyAccepted(appUuid);
    var store := new Store();
    var body := SpamBody(appUuid);
    denied := store.AddBlacklist(None, Some(body), Some("127.0.0.1"));
    tableAfterDenied := store.entries;
    created := store.AddBlacklist(Some(StaticToken), Some(body), Some("127.0.0.1"));
    found := store.CheckBlacklist(Some(StaticToken), "test@example.com");
  }
}
