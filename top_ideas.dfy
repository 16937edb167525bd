/**
 * The `/api/top-ideas` route: `POST` records an idea with an upsert keyed on
 * its derived app name (`$inc searches`, `$setOnInsert` of the descriptive
 * fields), and `GET` reads the five most-searched ideas.
 */
module TopIdeas {
  import opened Common

  /** A document of the `ideas` collection. */
  datatype Idea = Idea(appName: string, idea: string, description: string, category: string,
                       searches: nat, createdAt: int)

  /** What the language model derives from the user's text (`generateAppDetails`). */
  datatype AppDetails = AppDetails(appName: string, description: string, category: string)

  /** The request body of `POST`: unreadable JSON, or an object whose `userInput` may be absent. */
  datatype PostBody = Unreadable | Body(userInput: Option<string>)

  datatype PostResponse =
    | Saved(message: string, appName: string, description: string, category: string)
    | Failed(status: int, error: string)

  const TopLimit: nat := 5
  const SavedMessage := "Idea saved successfully"
  const MissingInputMessage := "User input is required"
  const ProcessingErrorMessage := "An error occurred while processing the request"

  /** Every document sits under its own app name and has been searched at least once. */
  ghost predicate WellKeyed(m: map<string, Idea>) {
    forall k :: k in m ==> m[k].appName == k && m[k].searches >= 1
  }

  /**
   * The collection after `updateOne({appName}, {$inc: {searches: 1}, $setOnInsert: {...}}, {upsert: true})`:
   * a new name gets a fresh document counted once, an existing one only gains a search.
   */
  function Upserted(m: map<string, Idea>, appName: string, userInput: string, description: string,
                    category: string, now: int): (r: map<string, Idea>)
    ensures r.Keys == m.Keys + {appName}
    ensures forall k :: k in m && k != appName ==> r[k] == m[k]
    ensures appName !in m ==> r[appName] == Idea(appName, userInput, description, category, 1, now)
    ensures appName in m ==> r[appName].searches == m[appName].searches + 1
    ensures appName in m ==> r[appName].(searches := m[appName].searches) == m[appName]
  {
    if appName in m then m[appName := m[appName].(searches := m[appName].searches + 1)]
    else m[appName := Idea(appName, userInput, description, category, 1, now)]
  }

  /** An upsert keeps the collection well keyed and never lowers any counter. */
  lemma UpsertMonotone(m: map<string, Idea>, appName: string, userInput: string, description: string,
                       category: string, now: int)
    requires WellKeyed(m)
    ensures var r := Upserted(m, appName, userInput, description, category, now);
      && WellKeyed(r)
      && (forall k :: k in m ==> k in r && r[k].searches >= m[k].searches)
  {
  }

  /** One later submission of the same app name: its descriptive text and time. */
  datatype Submission = Submission(userInput: string, description: string, category: string, createdAt: int)

  /** The collection after the submissions, in order, all deriving one app name. */
  function UpsertAll(m: map<string, Idea>, appName: string, subs: seq<Submission>): map<string, Idea>
    decreases |subs|
  {
    if |subs| == 0 then m
    else
      var s := subs[|subs| - 1];
      Upserted(UpsertAll(m, appName, subs[..|subs| - 1]), appName, s.userInput, s.description, s.category, s.createdAt)
  }

  /** Submissions of a name already present add exactly their number to its counter and touch nothing else. */
  lemma {:induction false} UpsertAllExisting(m: map<string, Idea>, appName: string, subs: seq<Submission>)
    requires appName in m
    ensures var r := UpsertAll(m, appName, subs);
      && r.Keys == m.Keys
      && r[appName] == m[appName].(searches := m[appName].searches + |subs|)
      && forall k :: k in m && k != appName ==> r[k] == m[k]
    decreases |subs|
  {
    if |subs| > 0 {
      UpsertAllExisting(m, appName, subs[..|subs| - 1]);
    }
  }

  /**
   * N submissions of one app name into an empty collection leave one document with `searches == N`
   * whose descriptive fields and creation time are those of the first submission.
   */
  lemma {:induction false} RepeatedUpserts(appName: string, subs: seq<Submission>)
    requires |subs| >= 1
    ensures var r := UpsertAll(map[], appName, subs);
      && r.Keys == {appName}
      && r[appName] == Idea(appName, subs[0].userInput, subs[0].description, subs[0].category, |subs|, subs[0].createdAt)
  {
    var first := UpsertAll(map[], appName, subs[..1]);
    assert UpsertAll(map[], appName, subs[..1][..0]) == map[];
    assert first == map[appName := Idea(appName, subs[0].userInput, subs[0].description, subs[0].category, 1, subs[0].createdAt)];
    UpsertAllPrefix(map[], appName, subs, 1);
    UpsertAllExisting(first, appName, subs[1..]);
  }

  /** Upserting a sequence is upserting its prefix, then its suffix. */
  lemma {:induction false} UpsertAllPrefix(m: map<string, Idea>, appName: string, subs: seq<Submission>, n: nat)
    requires n <= |subs|
    ensures UpsertAll(m, appName, subs) == UpsertAll(UpsertAll(m, appName, subs[..n]), appName, subs[n..])
    decreases |subs|
  {
    if |subs| > n {
      var last := |subs| - 1;
      assert subs[..last][..n] == subs[..n];
      assert subs[n..][..|subs[n..]| - 1] == subs[..last][n..];
      UpsertAllPrefix(m, appName, subs[..last], n);
    } else {
      assert subs[..n] == subs;
      assert subs[n..] == [];
    }
  }

  /** The names of a list of ideas. */
  ghost function Names(top: seq<Idea>): set<string> {
    set i | 0 <= i < |top| :: top[i].appName
  }

  /**
   * `find().sort({searches: -1}).limit(n)` for n > 0 (MongoDB reads `limit(0)` as no limit; the route uses 5): as many documents as the limit and the collection allow,
   * each one the stored document, no name twice, counters non-increasing, and no left-out
   * document searched more often than any returned one. Ties may come in any order.
   */
  ghost predicate IsTopN(m: map<string, Idea>, n: nat, top: seq<Idea>) {
    && |top| == Min(n, |m|)
    && (forall i :: 0 <= i < |top| ==> top[i].appName in m && m[top[i].appName] == top[i])
    && (forall i, j :: 0 <= i < j < |top| ==> top[i].appName != top[j].appName)
    && (forall i, j :: 0 <= i < j < |top| ==> top[i].searches >= top[j].searches)
    && (forall k, i :: k in m && k !in Names(top) && 0 <= i < |top| ==> m[k].searches <= top[i].searches)
  }

  /** A ranking prefix: stored documents, no name twice, counters non-increasing. */
  ghost predicate Ranked(m: map<string, Idea>, top: seq<Idea>) {
    && (forall i :: 0 <= i < |top| ==> top[i].appName in m && m[top[i].appName] == top[i])
    && (forall i, j :: 0 <= i < j < |top| ==> top[i].appName != top[j].appName)
    && (forall i, j :: 0 <= i < j < |top| ==> top[i].searches >= top[j].searches)
  }

  /** `remaining` holds exactly the names not yet taken. */
  ghost predicate Untaken(m: map<string, Idea>, top: seq<Idea>, remaining: set<string>) {
    remaining == m.Keys - Names(top) && |top| + |remaining| == |m|
  }

  /** No untaken document is searched more often than a taken one. */
  ghost predicate Dominates(m: map<string, Idea>, top: seq<Idea>, remaining: set<string>)
    requires remaining <= m.Keys
  {
    forall k, i :: k in remaining && 0 <= i < |top| ==> m[k].searches <= top[i].searches
  }

  lemma NamesAppend(top: seq<Idea>, x: Idea)
    ensures Names(top + [x]) == Names(top) + {x.appName}
  {
    var top' := top + [x];
    forall y | y in Names(top')
      ensures y in Names(top) + {x.appName}
    {
      var i :| 0 <= i < |top'| && top'[i].appName == y;
      if i < |top| { assert top[i] == top'[i]; }
    }
    forall y | y in Names(top) + {x.appName}
      ensures y in Names(top')
    {
      if y == x.appName {
        assert top'[|top|].appName == y;
      } else {
        var i :| 0 <= i < |top| && top[i].appName == y;
        assert top'[i] == top[i];
      }
    }
  }

  lemma UntakenStep(m: map<string, Idea>, top: seq<Idea>, remaining: set<string>, best: string)
    requires Untaken(m, top, remaining)
    requires best in remaining && m[best].appName == best
    ensures Untaken(m, top + [m[best]], remaining - {best})
  {
    NamesAppend(top, m[best]);
  }

  lemma RankedStep(m: map<string, Idea>, top: seq<Idea>, remaining: set<string>, best: string)
    requires Ranked(m, top) && Untaken(m, top, remaining) && Dominates(m, top, remaining)
    requires best in remaining && m[best].appName == best
    ensures Ranked(m, top + [m[best]])
  {
  }

  lemma DominatesStep(m: map<string, Idea>, top: seq<Idea>, remaining: set<string>, best: string)
    requires remaining <= m.Keys && Dominates(m, top, remaining)
    requires best in remaining
    requires forall k :: k in remaining ==> m[k].searches <= m[best].searches
    ensures Dominates(m, top + [m[best]], remaining - {best})
  {
  }

  lemma TopDone(m: map<string, Idea>, n: nat, top: seq<Idea>, remaining: set<string>)
    requires Ranked(m, top) && Untaken(m, top, remaining) && Dominates(m, top, remaining)
    requires |top| <= n
    requires |top| == n || remaining == {}
    ensures IsTopN(m, n, top)
  {
  }

  /** A name of `s` whose document has the most searches. */
  method MostSearched(m: map<string, Idea>, s: set<string>) returns (best: string)
    requires s != {} && s <= m.Keys
    ensures best in s
    ensures forall k :: k in s ==> m[k].searches <= m[best].searches
  {
    var todo := s;
    best :| best in todo;
    todo := todo - {best};
    while todo != {}
      invariant todo <= s && best in s
      invariant forall k :: k in s && k !in todo ==> m[k].searches <= m[best].searches
      decreases todo
    {
      var k :| k in todo;
      if m[k].searches > m[best].searches {
        best := k;
      }
      todo := todo - {k};
    }
  }

  /** The ideas collection of the document store. */
  class IdeaStore {
    var ideas: map<string, Idea>

    ghost predicate Valid()
      reads this
    {
      WellKeyed(ideas)
    }

    /** The collection as persisted so far; a fresh deployment starts from `map[]`. */
    constructor (persisted: map<string, Idea>)
      requires WellKeyed(persisted)
      ensures Valid() && ideas == persisted
    {
      ideas := persisted;
    }

    /** The atomic upsert of one submission. */
    method Upsert(appName: string, userInput: string, description: string, category: string, now: int)
      requires Valid()
      modifies this
      ensures Valid()
      ensures ideas == Upserted(old(ideas), appName, userInput, description, category, now)
    {
      UpsertMonotone(ideas, appName, userInput, description, category, now);
      ideas := Upserted(ideas, appName, userInput, description, category, now);
    }

    /**
     * `POST`: refuse a missing or empty `userInput`, then take the model's details
     * (absent when the completion or its parsing failed) and upsert them.
     */
    method Post(body: PostBody, details: Option<AppDetails>, now: int) returns (resp: PostResponse)
      requires Valid()
      modifies this
      ensures Valid()
      ensures body.Unreadable? ==> resp == Failed(500, ProcessingErrorMessage) && ideas == old(ideas)
      ensures body.Body? && (body.userInput.None? || body.userInput.value == "") ==>
                resp == Failed(400, MissingInputMessage) && ideas == old(ideas)
      ensures body.Body? && body.userInput.Some? && body.userInput.value != "" && details.None? ==>
                resp == Failed(500, ProcessingErrorMessage) && ideas == old(ideas)
      ensures body.Body? && body.userInput.Some? && body.userInput.value != "" && details.Some? ==>
                && resp == Saved(SavedMessage, details.value.appName, details.value.description, details.value.category)
                && ideas == Upserted(old(ideas), details.value.appName, body.userInput.value,
                                     details.value.description, details.value.category, now)
    {
      if body.Unreadable? {
        return Failed(500, ProcessingErrorMessage);
      }
      if body.userInput.None? || body.userInput.value == "" {
        return Failed(400, MissingInputMessage);
      }
      if details.None? {
        return Failed(500, ProcessingErrorMessage);
      }
      var d := details.value;
      Upsert(d.appName, body.userInput.value, d.description, d.category, now);
      resp := Saved(SavedMessage, d.appName, d.description, d.category);
    }

    /** The n most-searched ideas, by repeatedly taking the most-searched name not yet taken. */
    method TopN(n: nat) returns (top: seq<Idea>)
      requires Valid()
      ensures IsTopN(ideas, n, top)
    {
      var remaining := ideas.Keys;
      top := [];
      assert Names(top) == {};
      while |top| < n && remaining != {}
        invariant Ranked(ideas, top) && Untaken(ideas, top, remaining) && Dominates(ideas, top, remaining)
        invariant |top| <= n
        decreases |remaining|
      {
        var best := MostSearched(ideas, remaining);
        RankedStep(ideas, top, remaining, best);
        UntakenStep(ideas, top, remaining, best);
        DominatesStep(ideas, top, remaining, best);
        top := top + [ideas[best]];
        remaining := remaining - {best};
      }
      TopDone(ideas, n, top, remaining);
    }

    /** `GET`: the five most-searched ideas. */
    method Get() returns (top: seq<Idea>)
      requires Valid()
      ensures IsTopN(ideas, TopLimit, top)
    {
      top := TopN(TopLimit);
    }
  }
}
