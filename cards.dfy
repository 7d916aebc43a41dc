/** The field resolution of `renderMatches` (script.js:54-60): one card per
    match record, every field an ordered `||` fallback chain. */
module Cards {
  import opened Js
  import opened JsText

  /** The values the source binds to `title`, `team1`, `team2`, `status`,
      `score` and `id` for one record; each is interpolated into the card. */
  datatype Card = Card(title: Json, team1: Json, team2: Json, status: Json, score: Json, id: Json)

  /** `a['team-1'] || a.team1 || a.teamA || 'Team 1'`, and likewise for team 2. */
  function Team(m: Json, side: int): (r: Json)
    requires m != Null && (side == 1 || side == 2)
    ensures Truthy(r)
  {
    if side == 1 then Or([Get(m, "team-1"), Get(m, "team1"), Get(m, "teamA")], Str("Team 1"))
    else Or([Get(m, "team-2"), Get(m, "team2"), Get(m, "teamB")], Str("Team 2"))
  }

  /** `m.status || (m.matchStarted ? 'Live' : 'Scheduled') || ''`, shared by
      the card and the detail view. The middle operand is always a non-empty
      string, so the trailing `''` is never reached and the status is never
      falsy. */
  function Status(m: Json): (r: Json)
    requires m != Null
    ensures Truthy(r)
    ensures Present(Get(m, "status")) ==> r == Get(m, "status").value
    ensures !Present(Get(m, "status")) ==> r == Str(if Present(Get(m, "matchStarted")) then "Live" else "Scheduled")
  {
    var started := Str(if Present(Get(m, "matchStarted")) then "Live" else "Scheduled");
    OrTruthyTail([Get(m, "status")], started, Str(""));
    Or([Get(m, "status"), Some(started)], Str(""))
  }

  /** `m.id || m.unique_id || m.match_id || ''`. */
  function Id(m: Json): (r: Json)
    requires m != Null
    ensures Truthy(r) || r == Str("")
  {
    Or([Get(m, "id"), Get(m, "unique_id"), Get(m, "match_id")], Str(""))
  }

  /** `(m.score && typeof m.score === 'string') ? m.score : (m.score || '')`. */
  function Score(m: Json): (r: Json)
    requires m != Null
    ensures Truthy(r) || r == Str("")
    ensures r.Str? && r != Str("") ==> Get(m, "score") == Some(r)
  {
    var sc := Get(m, "score");
    if Present(sc) && sc.value.Str? then sc.value else Or([sc], Str(""))
  }

  /** Both branches of the score expression come to the same thing. */
  lemma ScoreIsScoreOrEmpty(m: Json)
    requires m != Null
    ensures Score(m) == if Present(Get(m, "score")) then Get(m, "score").value else Str("")
  {
  }

  /** `m.name || m.title || `${team1} vs ${team2}``. */
  function Title(m: Json): (r: Json)
    requires m != Null
    ensures Truthy(r)
  {
    Or([Get(m, "name"), Get(m, "title")], Str(Text(Team(m, 1)) + " vs " + Text(Team(m, 2))))
  }

  /** The card for one record. A `null` record throws at the first property
      read, which the caller models. */
  function CardOf(m: Json): (c: Card)
    requires m != Null
    ensures Truthy(c.team1) && Truthy(c.team2) && Truthy(c.title) && Truthy(c.status)
    ensures Truthy(c.id) || c.id == Str("")
  {
    Card(Title(m), Team(m, 1), Team(m, 2), Status(m), Score(m), Id(m))
  }

  /** The text the card writes into its button's `data-id` attribute, which
      is what the click handler later reads back. */
  function DataId(c: Card): string {
    Text(c.id)
  }

  /** A record without any truthy id field gets an empty `data-id`; one whose
      resolved id is a string, number or object gets a non-empty one. Only a
      truthy array id can write an empty attribute despite being present
      (`[]`, `[null]`, `[""]`). */
  lemma DataIdEmptyIff(m: Json)
    requires m != Null
    ensures NonePresent([Get(m, "id"), Get(m, "unique_id"), Get(m, "match_id")]) ==> DataId(CardOf(m)) == ""
    ensures var id := CardOf(m).id;
      DataId(CardOf(m)) == "" <==>
        || id == Str("")
        || (id.Arr? && (|id.elems| == 0 || (|id.elems| == 1 && ElemText(id.elems[0]) == "")))
  {
    TextEmptyIff(CardOf(m).id);
  }

  /** With neither `name` nor `title`, the title is "<team1> vs <team2>":
      `{team1: "A", team2: "B"}` is titled "A vs B". */
  lemma TitleFallback(a: string, b: string)
    requires a != "" && b != ""
    ensures CardOf(Obj(map["team1" := Str(a), "team2" := Str(b)])).title == Str(a + " vs " + b)
  {
    var m := Obj(map["team1" := Str(a), "team2" := Str(b)]);
    TeamFallbacks(m, 1);
    TeamFallbacks(m, 2);
    assert Team(m, 1) == Str(a) && Team(m, 2) == Str(b);
    assert !Present(Get(m, "name")) && !Present(Get(m, "title"));
    TitleFallbacks(m);
  }

  /** Each team is the first truthy of its three keys, in source order. */
  lemma TeamFallbacks(m: Json, side: int)
    requires m != Null && (side == 1 || side == 2)
    ensures var k := if side == 1 then ["team-1", "team1", "teamA"] else ["team-2", "team2", "teamB"];
      && (Present(Get(m, k[0])) ==> Team(m, side) == Get(m, k[0]).value)
      && (!Present(Get(m, k[0])) && Present(Get(m, k[1])) ==> Team(m, side) == Get(m, k[1]).value)
      && (!Present(Get(m, k[0])) && !Present(Get(m, k[1])) && Present(Get(m, k[2])) ==> Team(m, side) == Get(m, k[2]).value)
      && (NonePresent([Get(m, k[0]), Get(m, k[1]), Get(m, k[2])]) ==> Team(m, side) == Str(if side == 1 then "Team 1" else "Team 2"))
  {
    var k := if side == 1 then ["team-1", "team1", "teamA"] else ["team-2", "team2", "teamB"];
    var c := [Get(m, k[0]), Get(m, k[1]), Get(m, k[2])];
    assert Present(c[0]) ==> FirstPresentAt(c, 0);
    assert !Present(c[0]) && Present(c[1]) ==> FirstPresentAt(c, 1);
    assert !Present(c[0]) && !Present(c[1]) && Present(c[2]) ==> FirstPresentAt(c, 2);
  }

  /** The title is `name`, else `title`, else "<team1> vs <team2>". */
  lemma TitleFallbacks(m: Json)
    requires m != Null
    ensures Present(Get(m, "name")) ==> Title(m) == Get(m, "name").value
    ensures !Present(Get(m, "name")) && Present(Get(m, "title")) ==> Title(m) == Get(m, "title").value
    ensures !Present(Get(m, "name")) && !Present(Get(m, "title")) ==>
      Title(m) == Str(Text(Team(m, 1)) + " vs " + Text(Team(m, 2)))
  {
    var c := [Get(m, "name"), Get(m, "title")];
    assert Present(c[0]) ==> FirstPresentAt(c, 0);
    assert !Present(c[0]) && Present(c[1]) ==> FirstPresentAt(c, 1);
  }

  /** The id is `id`, else `unique_id`, else `match_id`, else `''`. */
  lemma IdFallbacks(m: Json)
    requires m != Null
    ensures Present(Get(m, "id")) ==> Id(m) == Get(m, "id").value
    ensures !Present(Get(m, "id")) && Present(Get(m, "unique_id")) ==> Id(m) == Get(m, "unique_id").value
    ensures !Present(Get(m, "id")) && !Present(Get(m, "unique_id")) && Present(Get(m, "match_id")) ==>
      Id(m) == Get(m, "match_id").value
    ensures NonePresent([Get(m, "id"), Get(m, "unique_id"), Get(m, "match_id")]) ==> Id(m) == Str("")
  {
    var c := [Get(m, "id"), Get(m, "unique_id"), Get(m, "match_id")];
    assert Present(c[0]) ==> FirstPresentAt(c, 0);
    assert !Present(c[0]) && Present(c[1]) ==> FirstPresentAt(c, 1);
    assert !Present(c[0]) && !Present(c[1]) && Present(c[2]) ==> FirstPresentAt(c, 2);
  }
}
