/** Reshaping the upstream event list into `{summary, start}` records. */
module EventProjection {
  import opened Values

  /** `event['start'].get('dateTime', event['start'].get('date'))`: the
      timed start when there is one, else the all-day date, else `None`. */
  function StartOf(start: map<string, Json>): (v: Json)
    ensures "dateTime" in start ==> v == start["dateTime"]
    ensures "dateTime" !in start && "date" in start ==> v == start["date"]
    ensures "dateTime" !in start && "date" !in start ==> v == JNull
  {
    GetOr(start, "dateTime", GetOr(start, "date", JNull))
  }

  /** An event the loop body can project without raising: a dict with a
      `summary` key and a `start` key that holds a dict. Anything else makes
      `event['start']`, `.get` or `event['summary']` raise. */
  predicate WellFormed(e: Json) {
    e.JObj? && "summary" in e.fields && "start" in e.fields && e.fields["start"].JObj?
  }

  /** One iteration of the loop body: the `{summary, start}` record, or
      `None` when the body raises. */
  function ProjectEvent(e: Json): (r: Option<Json>)
    ensures r.Some? <==> WellFormed(e)
    ensures r.Some? ==> r.value.JObj? && r.value.fields.Keys == {"summary", "start"}
    ensures r.Some? ==> r.value.fields["summary"] == e.fields["summary"]
    ensures r.Some? ==> r.value.fields["start"] == StartOf(e.fields["start"].fields)
  {
    if WellFormed(e)
    then Some(JObj(map["summary" := e.fields["summary"],
                       "start" := StartOf(e.fields["start"].fields)]))
    else None
  }

  /** The whole projection: every event projected, in order, or `None` as
      soon as one of them raises. */
  function ProjectAll(items: seq<Json>): Option<seq<Json>> {
    if items == [] then Some([])
    else match ProjectEvent(items[0])
      case None => None
      case Some(p) =>
        (match ProjectAll(items[1..])
         case None => None
         case Some(rest) => Some([p] + rest))
  }

  /** The projection succeeds exactly when every event is well formed, and
      then keeps the length and the order of the events. */
  lemma {:induction false} ProjectAllSpec(items: seq<Json>)
    ensures ProjectAll(items).Some? <==> forall i :: 0 <= i < |items| ==> WellFormed(items[i])
    ensures ProjectAll(items).Some? ==>
      (|ProjectAll(items).value| == |items| &&
       forall i :: 0 <= i < |items| ==> ProjectAll(items).value[i] == ProjectEvent(items[i]).value)
  {
    if items != [] {
      ProjectAllSpec(items[1..]);
      if ProjectEvent(items[0]).Some? && ProjectAll(items[1..]).Some? {
        forall i | 0 <= i < |items|
          ensures ProjectAll(items).value[i] == ProjectEvent(items[i]).value
        {
          if i > 0 { assert items[i] == items[1..][i - 1]; }
        }
      } else if ProjectEvent(items[0]).Some? {
        var j :| 0 <= j < |items[1..]| && !WellFormed(items[1..][j]);
        assert !WellFormed(items[j + 1]);
      }
    }
  }

  /** The loop at the heart of the callback: builds `event_list` by
      appending one projected record per event. */
  method ProjectEvents(items: seq<Json>) returns (r: Option<seq<Json>>)
    ensures r.Some? <==> forall i :: 0 <= i < |items| ==> WellFormed(items[i])
    ensures r.Some? ==> (|r.value| == |items| &&
      forall i :: 0 <= i < |items| ==> r.value[i] == ProjectEvent(items[i]).value)
    ensures r == ProjectAll(items)
  {
    var eventList: seq<Json> := [];
    var k := 0;
    while k < |items|
      invariant 0 <= k <= |items|
      invariant |eventList| == k
      invariant forall i :: 0 <= i < k ==> WellFormed(items[i])
      invariant forall i :: 0 <= i < k ==> eventList[i] == ProjectEvent(items[i]).value
    {
      var projected := ProjectEvent(items[k]);
      if projected.None? {
        ProjectAllSpec(items);
        return None;
      }
      eventList := eventList + [projected.value];
      k := k + 1;
    }
    r := Some(eventList);
    ProjectAllSpec(items);
    assert eventList == ProjectAll(items).value;
  }
}
