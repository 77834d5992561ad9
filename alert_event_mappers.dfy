/** `AlertEventMappers`: an alert's action set is stored as the comma-joined enum
    names and parsed back by splitting on ',', dropping blank pieces and unknown
    names. The seconds-named copy (`data.mappers`) also stores a detection id;
    the millis-named copy (`entity.data.mappers`) has none. */
module AlertEventMappers {
  import opened Wrappers
  import opened Text
  import opened Domain

  datatype AlertEventEntity = AlertEventEntity(id: string, callId: string, detectionId: Option<string>,
                                               trigger: int, severity: string, probability: real,
                                               message: string, actions: string, acknowledged: bool,
                                               acknowledgedAt: Option<int>)

  function ActionNames(order: seq<AlertAction>): (names: seq<string>)
    ensures |names| == |order|
    ensures forall i :: 0 <= i < |order| ==> names[i] == ActionName(order[i])
  {
    if |order| == 0 then [] else [ActionName(order[0])] + ActionNames(order[1..])
  }

  /** `actionsTaken.joinToString(",") { it.name }`, where `order` is the set's iteration order. */
  function ActionsToString(order: seq<AlertAction>): string {
    Join(ActionNames(order), ',')
  }

  /** The actions named by the non-blank, known pieces. */
  function ActionsOf(pieces: seq<string>): (actions: set<AlertAction>)
    ensures forall a :: a in actions <==>
              exists i :: 0 <= i < |pieces| && !IsBlank(pieces[i]) && ParseAction(pieces[i]) == Some(a)
  {
    if |pieces| == 0 then {}
    else
      var rest := ActionsOf(pieces[1..]);
      var first := ParseAction(pieces[0]);
      var here := if !IsBlank(pieces[0]) && first.Some? then {first.value} else {};
      forall a ensures a in here + rest <==>
          exists i :: 0 <= i < |pieces| && !IsBlank(pieces[i]) && ParseAction(pieces[i]) == Some(a)
      {
        if a in rest {
          var i :| 0 <= i < |pieces[1..]| && !IsBlank(pieces[1..][i]) && ParseAction(pieces[1..][i]) == Some(a);
          assert pieces[i + 1] == pieces[1..][i];
        }
        if exists i :: 0 <= i < |pieces| && !IsBlank(pieces[i]) && ParseAction(pieces[i]) == Some(a) {
          var i :| 0 <= i < |pieces| && !IsBlank(pieces[i]) && ParseAction(pieces[i]) == Some(a);
          if i > 0 {
            assert pieces[1..][i - 1] == pieces[i];
          }
        }
      }
      here + rest
  }

  /** `actions.split(',').filter { it.isNotBlank() }.mapNotNull { valueOf }.toSet()`. */
  function ParseActions(s: string): set<AlertAction> {
    ActionsOf(Split(s, ','))
  }

  /** `AlertEventEntity.toDomain()`. */
  function AlertToDomain(e: AlertEventEntity): (a: AlertEvent)
    ensures a.id == e.id && a.callId == e.callId && a.trigger == e.trigger
    ensures a.severity == ParseSeverity(e.severity) && a.probability == e.probability
    ensures a.message == e.message && a.actionsTaken == ParseActions(e.actions)
    ensures a.acknowledged == e.acknowledged && a.acknowledgedAt == e.acknowledgedAt
  {
    AlertEvent(e.id, e.callId, e.trigger, ParseSeverity(e.severity), e.probability, e.message,
               ParseActions(e.actions), e.acknowledged, e.acknowledgedAt)
  }

  /** `AlertEvent.toEntity(detectionId)`; `order` lists the action set as it iterates. */
  function AlertToEntity(a: AlertEvent, order: seq<AlertAction>, detectionId: Option<string>): (e: AlertEventEntity)
    ensures e.id == a.id && e.callId == a.callId && e.detectionId == detectionId
    ensures e.trigger == a.trigger && e.acknowledgedAt == a.acknowledgedAt
    ensures e.severity == SeverityName(a.severity) && e.actions == ActionsToString(order)
  {
    AlertEventEntity(a.id, a.callId, detectionId, a.trigger, SeverityName(a.severity), a.probability,
                     a.message, ActionsToString(order), a.acknowledged, a.acknowledgedAt)
  }

  predicate Enumerates(order: seq<AlertAction>, actions: set<AlertAction>) {
    forall x :: x in actions <==> x in order
  }

  /** Names of enum constants are never blank. */
  lemma ActionNameNotBlank(x: AlertAction)
    ensures !IsBlank(ActionName(x))
  {
    var n := ActionName(x);
    assert !IsWhitespace(n[0]);
  }

  /** Each listed action's name parses back to it. */
  lemma ListedActionParsed(order: seq<AlertAction>, i: nat)
    requires i < |order|
    ensures order[i] in ActionsOf(ActionNames(order))
  {
    var names := ActionNames(order);
    var x := order[i];
    ActionNameNotBlank(x);
    assert names[i] == ActionName(x);
    assert ParseAction(names[i]) == Some(x) by {
      match x
      case NotifiedUser =>
      case CallFlagged =>
    }
  }

  /** Every parsed action was listed. */
  lemma ParsedActionListed(order: seq<AlertAction>, x: AlertAction)
    requires x in ActionsOf(ActionNames(order))
    ensures x in order
  {
    var names := ActionNames(order);
    var i :| 0 <= i < |names| && !IsBlank(names[i]) && ParseAction(names[i]) == Some(x);
    assert ActionName(order[i]) == ActionName(x);
    assert order[i] == x by {
      match x
      case NotifiedUser =>
      case CallFlagged =>
    }
  }

  /** The names of an order name exactly the actions it lists. */
  lemma ActionsOfNames(order: seq<AlertAction>)
    ensures ActionsOf(ActionNames(order)) == set x | x in order
  {
    forall x | x in order ensures x in ActionsOf(ActionNames(order)) {
      var i :| 0 <= i < |order| && order[i] == x;
      ListedActionParsed(order, i);
    }
    forall x | x in ActionsOf(ActionNames(order)) ensures x in order {
      ParsedActionListed(order, x);
    }
  }

  /** Parsing back the joined names of an order gives the set it enumerates. */
  lemma ParseJoinedActions(order: seq<AlertAction>)
    ensures ParseActions(ActionsToString(order)) == set x | x in order
  {
    var names := ActionNames(order);
    if |order| == 0 {
      assert ActionsToString(order) == "";
      assert Split("", ',') == [""];
      assert IsBlank("");
      assert ActionsOf([""]) == {};
    } else {
      forall j | 0 <= j < |names| ensures ',' !in names[j] {
        assert names[j] == ActionName(order[j]);
      }
      SplitJoin(names, ',');
      assert ParseActions(ActionsToString(order)) == ActionsOf(names);
      ActionsOfNames(order);
    }
  }

  /** Every alert survives a write and a read, whatever order its actions iterate in. */
  lemma AlertRoundTrip(a: AlertEvent, order: seq<AlertAction>, detectionId: Option<string>)
    requires Enumerates(order, a.actionsTaken)
    ensures AlertToDomain(AlertToEntity(a, order, detectionId)) == a
  {
    ParseJoinedActions(order);
    assert ParseSeverity(SeverityName(a.severity)) == a.severity;
  }

  /** An empty action set is stored as "" and "" reads back as the empty set. */
  lemma EmptyActions()
    ensures ActionsToString([]) == ""
    ensures ParseActions("") == {}
  {
    ParseJoinedActions([]);
  }

  /** The pieces of the sample stored value ",, ,BOGUS,CALL_FLAGGED". */
  const SAMPLE_PIECES: seq<string> := ["", "", " ", "BOGUS", "CALL_FLAGGED"]

  /** A piece free of the separator put in front of a string adds one piece in
      front of its split. */
  lemma SplitCons(first: string, rest: string, sep: char, pieces: seq<string>)
    requires sep !in first && Split(rest, sep) == pieces
    ensures Split(first + [sep] + rest, sep) == [first] + pieces
  {
    var s := first + [sep] + rest;
    IndexOfAfterPrefix(first, rest, sep);
    assert s[..|first|] == first;
    assert s[|first| + 1..] == rest;
  }

  /** A string free of the separator is a single piece. */
  lemma SplitLast(last: string, sep: char)
    requires sep !in last
    ensures Split(last, sep) == [last]
  {
    IndexOfAbsent(last, sep);
  }

  /** Five comma-free pieces joined by commas split back into those five pieces. */
  lemma SplitFive(a: string, b: string, c: string, d: string, e: string, sep: char)
    requires sep !in a && sep !in b && sep !in c && sep !in d && sep !in e
    ensures Split(a + [sep] + (b + [sep] + (c + [sep] + (d + [sep] + e))), sep)
         == [a] + ([b] + ([c] + ([d] + [e])))
  {
    var de := d + [sep] + e;
    var cde := c + [sep] + de;
    var bcde := b + [sep] + cde;
    SplitLast(e, sep);
    SplitCons(d, e, sep, [e]);
    SplitCons(c, de, sep, [d] + [e]);
    SplitCons(b, cde, sep, [c] + ([d] + [e]));
    SplitCons(a, bcde, sep, [b] + ([c] + ([d] + [e])));
  }

  /** ",, ,BOGUS,CALL_FLAGGED" splits into five pieces at its four commas (the
      string is spelled as its pieces joined by commas). */
  lemma SampleSplit()
    ensures Split("" + [','] + ("" + [','] + (" " + [','] + ("BOGUS" + [','] + "CALL_FLAGGED"))), ',')
         == SAMPLE_PIECES
  {
    SplitFive("", "", " ", "BOGUS", "CALL_FLAGGED", ',');
  }

  /** Of the five pieces only "CALL_FLAGGED" names an action. */
  lemma SamplePiecesActions()
    ensures ActionsOf(SAMPLE_PIECES) == {CallFlagged}
  {
    var pieces := SAMPLE_PIECES;
    assert pieces[4] == "CALL_FLAGGED" && pieces[4][0] == 'C';
    assert !IsBlank(pieces[4]) && ParseAction(pieces[4]) == Some(CallFlagged);
    assert ParseAction(pieces[3]).None?;
    assert IsBlank(pieces[2]) && IsBlank(pieces[1]) && IsBlank(pieces[0]);
    forall x ensures x in ActionsOf(pieces) <==> x == CallFlagged
    {
      if x in ActionsOf(pieces) {
        var i :| 0 <= i < |pieces| && !IsBlank(pieces[i]) && ParseAction(pieces[i]) == Some(x);
        assert i == 4;
      }
    }
  }

  /** Blank pieces and unknown names are dropped: the stored value
      ",, ,BOGUS,CALL_FLAGGED" (spelled as its pieces joined by commas) reads as
      the single action CALL_FLAGGED. */
  lemma UnknownAndBlankDropped()
    ensures ParseActions("" + [','] + ("" + [','] + (" " + [','] + ("BOGUS" + [','] + "CALL_FLAGGED"))))
         == {CallFlagged}
  {
    SampleSplit();
    SamplePiecesActions();
  }
}
