/**
 * The events panel of src/components/EventsPanel.tsx: the colour of an event
 * name, one row per event, and the single expanded row. Time formatting,
 * scrolling and the JSON text of the properties are not modelled.
 */
module EventsPanel {
  import opened Wrappers

  /** An event as the panel lists it: its id and its name. */
  datatype GameEvent = GameEvent(id: string, event: string)

  /** `sub` occurs in `s` at index `i`. */
  ghost predicate OccursAt(s: string, sub: string, i: int) {
    0 <= i && i + |sub| <= |s| && s[i..i + |sub|] == sub
  }

  /** `s.includes(sub)`. */
  predicate Includes(s: string, sub: string): (b: bool)
    ensures b ==> |sub| <= |s|
    ensures sub == [] ==> b
    decreases |s|
  {
    (|sub| <= |s| && s[..|sub|] == sub) || (|s| > 0 && Includes(s[1..], sub))
  }

  /** `includes` is true exactly when the substring occurs at some index. */
  lemma {:induction false} IncludesIffOccurs(s: string, sub: string)
    ensures Includes(s, sub) <==> exists i :: OccursAt(s, sub, i)
    decreases |s|
  {
    if |sub| <= |s| && s[..|sub|] == sub {
      assert OccursAt(s, sub, 0);
    } else if |s| > 0 {
      IncludesIffOccurs(s[1..], sub);
      forall i ensures OccursAt(s, sub, i + 1) <==> OccursAt(s[1..], sub, i) {
        if 0 <= i && i + 1 + |sub| <= |s| {
          assert s[i + 1..i + 1 + |sub|] == s[1..][i..i + |sub|];
        }
      }
      assert !OccursAt(s, sub, 0);
      if Includes(s[1..], sub) {
        var i :| OccursAt(s[1..], sub, i);
        assert OccursAt(s, sub, i + 1);
      } else {
        forall i ensures !OccursAt(s, sub, i) {
          if i > 0 {
            assert OccursAt(s, sub, (i - 1) + 1) <==> OccursAt(s[1..], sub, i - 1);
          }
        }
      }
    }
  }

  /** The text colours the panel uses for event names. */
  datatype Color = Green | Blue | Yellow | Red | Purple | Orange | Gray {
    /** The Tailwind class of the colour. */
    function ClassName(): string {
      match this
      case Green => "text-green-400"
      case Blue => "text-blue-400"
      case Yellow => "text-yellow-400"
      case Red => "text-red-400"
      case Purple => "text-purple-400"
      case Orange => "text-orange-400"
      case Gray => "text-gray-300"
    }
  }

  /** The keyword a name is tested for, and the colour it gets, in priority order. */
  const Rules: seq<(string, Color)> := [
    ("started", Green),
    ("completed", Blue),
    ("collected", Yellow),
    ("died", Red),
    ("jumped", Purple),
    ("override", Orange)
  ]

  /** The colour of a name that contains none of the keywords. */
  const Fallback: Color := Gray

  /** The colour of the first rule of `rules` whose keyword the name contains. */
  function FirstMatchColor(name: string, rules: seq<(string, Color)>): Color
    decreases |rules|
  {
    if rules == [] then Fallback
    else if Includes(name, rules[0].0) then rules[0].1
    else FirstMatchColor(name, rules[1..])
  }

  /** The first rule whose keyword occurs decides the colour, whatever later rules match. */
  lemma {:induction false} FirstMatchWins(name: string, rules: seq<(string, Color)>, k: nat)
    requires k < |rules| && Includes(name, rules[k].0)
    requires forall j :: 0 <= j < k ==> !Includes(name, rules[j].0)
    ensures FirstMatchColor(name, rules) == rules[k].1
    decreases k
  {
    if k > 0 {
      assert !Includes(name, rules[0].0);
      FirstMatchWins(name, rules[1..], k - 1);
    }
  }

  /** No keyword occurs: the fallback colour. */
  lemma {:induction false} NoMatchFallsBack(name: string, rules: seq<(string, Color)>)
    requires forall j :: 0 <= j < |rules| ==> !Includes(name, rules[j].0)
    ensures FirstMatchColor(name, rules) == Fallback
    decreases |rules|
  {
    if rules != [] {
      assert !Includes(name, rules[0].0);
      NoMatchFallsBack(name, rules[1..]);
    }
  }

  /** `getEventColor`: an if-chain over the keywords, in the order of `Rules`. */
  function GetEventColor(eventName: string): (color: Color)
    ensures color == FirstMatchColor(eventName, Rules)
  {
    var r := Rules;
    assert r[1..] == [("completed", Blue), ("collected", Yellow), ("died", Red), ("jumped", Purple), ("override", Orange)];
    assert r[1..][1..] == [("collected", Yellow), ("died", Red), ("jumped", Purple), ("override", Orange)];
    assert r[1..][1..][1..] == [("died", Red), ("jumped", Purple), ("override", Orange)];
    assert r[1..][1..][1..][1..] == [("jumped", Purple), ("override", Orange)];
    assert r[1..][1..][1..][1..][1..] == [("override", Orange)];
    assert r[1..][1..][1..][1..][1..][1..] == [];
    if Includes(eventName, "started") then Green
    else if Includes(eventName, "completed") then Blue
    else if Includes(eventName, "collected") then Yellow
    else if Includes(eventName, "died") then Red
    else if Includes(eventName, "jumped") then Purple
    else if Includes(eventName, "override") then Orange
    else Gray
  }

  /** The colour of a rule exactly when its keyword occurs and no earlier one does. */
  lemma ColorIsFirstMatchingRule(eventName: string, k: nat)
    requires k < |Rules|
    ensures GetEventColor(eventName) == Rules[k].1 <==>
      Includes(eventName, Rules[k].0) && forall j :: 0 <= j < k ==> !Includes(eventName, Rules[j].0)
  {
    if Includes(eventName, Rules[k].0) && forall j :: 0 <= j < k ==> !Includes(eventName, Rules[j].0) {
      FirstMatchWins(eventName, Rules, k);
    } else {
      var j: nat := 0;
      while j < |Rules| && !Includes(eventName, Rules[j].0)
        invariant j <= |Rules|
        invariant forall i :: 0 <= i < j ==> !Includes(eventName, Rules[i].0)
      {
        j := j + 1;
      }
      if j < |Rules| {
        FirstMatchWins(eventName, Rules, j);
      } else {
        NoMatchFallsBack(eventName, Rules);
      }
    }
  }

  /** A name containing none of the keywords gets the fallback `text-gray-300`. */
  lemma NoKeywordIsGray(eventName: string)
    requires forall j :: 0 <= j < |Rules| ==> !Includes(eventName, Rules[j].0)
    ensures GetEventColor(eventName) == Gray && GetEventColor(eventName).ClassName() == "text-gray-300"
  {
    NoMatchFallsBack(eventName, Rules);
  }

  /** A name containing `started` is green whatever else it contains. */
  lemma StartedIsGreen(eventName: string, i: int)
    requires OccursAt(eventName, "started", i)
    ensures GetEventColor(eventName) == Green && GetEventColor(eventName).ClassName() == "text-green-400"
  {
    IncludesIffOccurs(eventName, "started");
  }

  /** A row's `onClick`: collapse the expanded row, or expand another one. */
  function ClickRow(expanded: Option<string>, id: string): (r: Option<string>)
    ensures r == None <==> expanded == Some(id)
    ensures r != None ==> r == Some(id)
  {
    if expanded == Some(id) then None else Some(id)
  }

  /** Clicking the same row twice returns to "only that row expanded" or to "nothing expanded". */
  lemma ClickTwice(expanded: Option<string>, id: string)
    ensures ClickRow(ClickRow(expanded, id), id) == if expanded == Some(id) then expanded else None
  {
  }

  /** One rendered row: the event, its colour, and whether its properties are shown. */
  datatype Row = Row(id: string, event: string, color: Color, showsProperties: bool)

  /** What the list shows: the placeholder, or the rows. */
  datatype View = Placeholder | Rows(rows: seq<Row>)

  function RowOf(e: GameEvent, expanded: Option<string>): Row {
    Row(e.id, e.event, GetEventColor(e.event), expanded == Some(e.id))
  }

  /** The list: the placeholder for no events, otherwise one row per event in order. */
  function Render(events: seq<GameEvent>, expanded: Option<string>): (v: View)
    ensures v.Placeholder? <==> events == []
    ensures v.Rows? ==> |v.rows| == |events|
    ensures v.Rows? ==> forall i :: 0 <= i < |events| ==>
      v.rows[i].id == events[i].id && v.rows[i].event == events[i].event && v.rows[i].color == GetEventColor(events[i].event)
      && (v.rows[i].showsProperties <==> expanded == Some(events[i].id))
  {
    if events == [] then Placeholder
    else Rows(seq(|events|, i requires 0 <= i < |events| => RowOf(events[i], expanded)))
  }

  /** With distinct ids, at most one row shows its properties. */
  lemma AtMostOneExpanded(events: seq<GameEvent>, expanded: Option<string>)
    requires forall i, j :: 0 <= i < j < |events| ==> events[i].id != events[j].id
    ensures var v := Render(events, expanded);
      v.Rows? ==> forall i, j ::
        (0 <= i < |v.rows| && 0 <= j < |v.rows| && v.rows[i].showsProperties && v.rows[j].showsProperties) ==> i == j
  {
  }
}
