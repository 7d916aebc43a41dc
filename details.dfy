/** The pure part of `renderMatchDetails` (script.js:91-122): unwrapping the
    response, resolving title, status, toss and scores, and classifying the
    scores into innings blocks, a structural dump, or plain text. */
module Details {
  import opened Js
  import opened JsText
  import Cards

  /** What an innings block shows as its score: a value interpolated as
      text, or `JSON.stringify(s)` of the whole innings record. */
  datatype Shown = Value(v: Json) | Dump(v: Json)

  datatype Inning = Inning(title: Json, score: Shown)

  /** The three ways the scores section is rendered. `Pretty` is the
      indented `JSON.stringify(scores, null, 2)` inside a `<pre>`. */
  datatype Scores = Innings(innings: seq<Inning>) | Pretty(v: Json) | Plain(v: Json)

  /** The detail view: title, status, toss, scores, and the raw-response
      disclosure holding the unwrapped match. */
  datatype Detail = Detail(title: Json, status: Json, toss: Json, scores: Scores, raw: Json)

  /** `data.match || data.data || data`: the unwrapped record is never
      `null`, so none of the property reads after it can throw. */
  function Unwrap(data: Json): (m: Json)
    requires data != Null
    ensures m != Null
    ensures Present(Get(data, "match")) ==> m == Get(data, "match").value
    ensures !Present(Get(data, "match")) && Present(Get(data, "data")) ==> m == Get(data, "data").value
    ensures !Present(Get(data, "match")) && !Present(Get(data, "data")) ==> m == data
  {
    assert Present(Get(data, "match")) ==> FirstPresentAt([Get(data, "match"), Get(data, "data")], 0);
    assert !Present(Get(data, "match")) && Present(Get(data, "data")) ==> FirstPresentAt([Get(data, "match"), Get(data, "data")], 1);
    Or([Get(data, "match"), Get(data, "data")], data)
  }

  /** `${match['team-1']} vs ${match['team-2']}`: the text of team 1 (an
      absent team prints as "undefined"), then " vs ", then the text of
      team 2. It is never empty, so it is always truthy. */
  function TeamsTemplate(m: Json): (t: string)
    requires m != Null
    ensures var a := PropText(Get(m, "team-1"));
      && |t| >= |a| + 4
      && t[..|a|] == a && t[|a|..|a| + 4] == " vs " && t[|a| + 4..] == PropText(Get(m, "team-2"))
    ensures Truthy(Str(t))
  {
    PropText(Get(m, "team-1")) + " vs " + PropText(Get(m, "team-2"))
  }

  /** `match.name || match.title || <teams template> || 'Match details'`
      as written. */
  function Title(m: Json): (r: Json)
    requires m != Null
    ensures Truthy(r)
  {
    OrTruthyTail([Get(m, "name"), Get(m, "title")], Str(TeamsTemplate(m)), Str("Match details"));
    assert [Get(m, "name"), Get(m, "title")] + [Some(Str(TeamsTemplate(m)))] ==
      [Get(m, "name"), Get(m, "title"), Some(Str(TeamsTemplate(m)))];
    Or([Get(m, "name"), Get(m, "title"), Some(Str(TeamsTemplate(m)))], Str("Match details"))
  }

  /** The template always contains " vs ", so it is truthy and the final
      `'Match details'` can never be chosen: the title is name, else title,
      else the template. */
  lemma TitleDefaultUnreachable(m: Json)
    requires m != Null
    ensures Truthy(Title(m))
    ensures Title(m) == Or([Get(m, "name"), Get(m, "title")], Str(TeamsTemplate(m)))
  {
    var c := [Get(m, "name"), Get(m, "title")];
    assert c + [Some(Str(TeamsTemplate(m)))] == [Get(m, "name"), Get(m, "title"), Some(Str(TeamsTemplate(m)))];
    OrTruthyTail(c, Str(TeamsTemplate(m)), Str("Match details"));
  }

  /** A record with no name, title or teams is titled "undefined vs
      undefined", not "Match details". */
  lemma TitleOfBareRecord()
    ensures Title(Obj(map[])) == Str("undefined vs undefined")
  {
    assert NonePresent([Get(Obj(map[]), "name"), Get(Obj(map[]), "title")]);
    assert "undefined" + " vs " + "undefined" == "undefined vs undefined";
    TitleDefaultUnreachable(Obj(map[]));
  }

  /** `match.toss || match.toss_winner || ''`. */
  function Toss(m: Json): (r: Json)
    requires m != Null
    ensures Truthy(r) || r == Str("")
  {
    Or([Get(m, "toss"), Get(m, "toss_winner")], Str(""))
  }

  /** The toss is `toss`, else `toss_winner`, else `''`. */
  lemma TossFallbacks(m: Json)
    requires m != Null
    ensures Present(Get(m, "toss")) ==> Toss(m) == Get(m, "toss").value
    ensures !Present(Get(m, "toss")) && Present(Get(m, "toss_winner")) ==> Toss(m) == Get(m, "toss_winner").value
    ensures !Present(Get(m, "toss")) && !Present(Get(m, "toss_winner")) ==> Toss(m) == Str("")
  {
    var c := [Get(m, "toss"), Get(m, "toss_winner")];
    assert Present(c[0]) ==> FirstPresentAt(c, 0);
    assert !Present(c[0]) && Present(c[1]) ==> FirstPresentAt(c, 1);
  }

  /** `match.score || match.scores || match.innings || []`: never `null`, and
      a falsy pick is impossible except the empty-array default. */
  function ScoresValue(m: Json): (r: Json)
    requires m != Null
    ensures Truthy(r)
    ensures NonePresent([Get(m, "score"), Get(m, "scores"), Get(m, "innings")]) ==> r == Arr([])
  {
    Or([Get(m, "score"), Get(m, "scores"), Get(m, "innings")], Arr([]))
  }

  /** The scores value is `score`, else `scores`, else `innings`, else `[]`. */
  lemma ScoresFallbacks(m: Json)
    requires m != Null
    ensures Present(Get(m, "score")) ==> ScoresValue(m) == Get(m, "score").value
    ensures !Present(Get(m, "score")) && Present(Get(m, "scores")) ==> ScoresValue(m) == Get(m, "scores").value
    ensures !Present(Get(m, "score")) && !Present(Get(m, "scores")) && Present(Get(m, "innings")) ==>
      ScoresValue(m) == Get(m, "innings").value
  {
    var c := [Get(m, "score"), Get(m, "scores"), Get(m, "innings")];
    assert Present(c[0]) ==> FirstPresentAt(c, 0);
    assert !Present(c[0]) && Present(c[1]) ==> FirstPresentAt(c, 1);
    assert !Present(c[0]) && !Present(c[1]) && Present(c[2]) ==> FirstPresentAt(c, 2);
  }

  /** One innings block: `s.title || s.inning || ''` over
      `s.score || s.runs || JSON.stringify(s)`. */
  function InningOf(s: Json): (b: Inning)
    requires s != Null
    ensures Truthy(b.title) || b.title == Str("")
    ensures b.score.Dump? ==> b.score.v == s && !Present(Get(s, "score")) && !Present(Get(s, "runs"))
    ensures b.score.Value? ==> Truthy(b.score.v)
  {
    var sc := Get(s, "score");
    var runs := Get(s, "runs");
    Inning(Or([Get(s, "title"), Get(s, "inning")], Str("")),
           if Present(sc) then Value(sc.value) else if Present(runs) then Value(runs.value) else Dump(s))
  }

  /** An innings block's heading is `title`, else `inning`, else `''`; its
      score is `score`, else `runs`, else the dump of the innings record. */
  lemma InningFallbacks(s: Json)
    requires s != Null
    ensures Present(Get(s, "title")) ==> InningOf(s).title == Get(s, "title").value
    ensures !Present(Get(s, "title")) && Present(Get(s, "inning")) ==> InningOf(s).title == Get(s, "inning").value
    ensures !Present(Get(s, "title")) && !Present(Get(s, "inning")) ==> InningOf(s).title == Str("")
    ensures Present(Get(s, "score")) ==> InningOf(s).score == Value(Get(s, "score").value)
    ensures !Present(Get(s, "score")) && Present(Get(s, "runs")) ==> InningOf(s).score == Value(Get(s, "runs").value)
    ensures !Present(Get(s, "score")) && !Present(Get(s, "runs")) ==> InningOf(s).score == Dump(s)
  {
    var c := [Get(s, "title"), Get(s, "inning")];
    assert Present(c[0]) ==> FirstPresentAt(c, 0);
    assert !Present(c[0]) && Present(c[1]) ==> FirstPresentAt(c, 1);
  }

  /** `scores.map(...)`: one block per element, in order; the first `null`
      element throws. */
  function InningsOf(xs: seq<Json>): (r: Option<seq<Inning>>)
    ensures r.Some? <==> forall i :: 0 <= i < |xs| ==> xs[i] != Null
    ensures r.Some? ==> |r.value| == |xs| && forall i :: 0 <= i < |xs| ==> r.value[i] == InningOf(xs[i])
  {
    if xs == [] then Some([])
    else if xs[0] == Null then None
    else match InningsOf(xs[1..])
      case None => None
      case Some(rest) => Some([InningOf(xs[0])] + rest)
  }

  /** The scores classification: an array gives innings blocks, another
      object (`typeof` says "object") a dump, anything else plain text. */
  function ScoresView(v: Json): (r: Option<Scores>)
    ensures v.Arr? ==> (r.Some? <==> forall i :: 0 <= i < |v.elems| ==> v.elems[i] != Null)
    ensures v.Arr? && r.Some? ==> r.value.Innings? && |r.value.innings| == |v.elems|
    ensures v.Arr? && r.Some? ==> forall i :: 0 <= i < |v.elems| ==> r.value.innings[i] == InningOf(v.elems[i])
    ensures !v.Arr? ==> r.Some?
    ensures (v.Obj? || v == Null) ==> r == Some(Pretty(v))
    ensures !v.Arr? && !v.Obj? && v != Null ==> r == Some(Plain(v))
  {
    match v
    case Arr(xs) => (match InningsOf(xs) case None => None case Some(bs) => Some(Innings(bs)))
    case Obj(_) => Some(Pretty(v))
    case Null => Some(Pretty(v))
    case _ => Some(Plain(v))
  }

  /** The whole detail view, or `None` when rendering throws: exactly when
      the body is `null` (reading `data.match`) or the resolved scores are an
      array with a `null` element (reading `s.title`). A record without
      score, scores or innings shows no innings blocks. */
  function DetailOf(data: Json): (r: Option<Detail>)
    ensures r.None? <==>
      data == Null || (ScoresValue(Unwrap(data)).Arr? && exists i :: 0 <= i < |ScoresValue(Unwrap(data)).elems| && ScoresValue(Unwrap(data)).elems[i] == Null)
    ensures data != Null && NonePresent([Get(Unwrap(data), "score"), Get(Unwrap(data), "scores"), Get(Unwrap(data), "innings")]) ==>
      r == Some(Detail(Title(Unwrap(data)), Cards.Status(Unwrap(data)), Toss(Unwrap(data)), Innings([]), Unwrap(data)))
    ensures r.Some? ==> r.value.raw == Unwrap(data) && r.value.title == Title(Unwrap(data))
    ensures r.Some? ==> var m := Unwrap(data);
      && r.value.status == Cards.Status(m) && r.value.toss == Toss(m)
      && Some(r.value.scores) == ScoresView(ScoresValue(m))
    ensures r.Some? ==> Truthy(r.value.title) && Truthy(r.value.status)
  {
    if data == Null then None
    else
      var m := Unwrap(data);
      match ScoresView(ScoresValue(m))
      case None => None
      case Some(sv) => Some(Detail(Title(m), Cards.Status(m), Toss(m), sv, m))
  }

  /** `{match: {name: "X"}}`, `{data: {name: "X"}}` and `{name: "X"}` all
      resolve the title "X". */
  lemma UnwrapShapes(x: string)
    requires x != ""
    ensures var inner := Obj(map["name" := Str(x)]);
      && Title(Unwrap(Obj(map["match" := inner]))) == Str(x)
      && Title(Unwrap(Obj(map["data" := inner]))) == Str(x)
      && Title(Unwrap(inner)) == Str(x)
  {
    var inner := Obj(map["name" := Str(x)]);
    assert FirstPresentAt([Get(inner, "name"), Get(inner, "title"), Some(Str(TeamsTemplate(inner)))], 0);
    assert Unwrap(Obj(map["match" := inner])) == inner;
    assert Unwrap(Obj(map["data" := inner])) == inner;
    assert Unwrap(inner) == inner;
  }
}
