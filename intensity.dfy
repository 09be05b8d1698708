/**
 * The intensity ("boss mode") selector shared by the dashboard and the
 * conversation: a closed table of five levels, each a display value with a
 * short description, and the lookup of the current level by its value.
 */
module Intensity {
  import opened Wrappers

  datatype Level = GentleNudge | FriendlyDebate | StubbornFriend | DevilsAdvocate | HardcoreSteelmanning

  datatype LevelInfo = LevelInfo(value: string, description: string)

  function Info(l: Level): LevelInfo {
    match l
    case GentleNudge => LevelInfo("Gentle Nudge", "Just a friendly reminder")
    case FriendlyDebate => LevelInfo("Friendly Debate", "Let's talk this through")
    case StubbornFriend => LevelInfo("Stubborn Friend", "I really think you should reconsider")
    case DevilsAdvocate => LevelInfo("Devil's Advocate", "But have you considered...")
    case HardcoreSteelmanning => LevelInfo("Hardcore Steelmanning", "I will destroy your arguments")
  }

  /** The string a component stores as its `intensityLevel`. */
  function Name(l: Level): string {
    Info(l).value
  }

  /** The levels in the order the dropdown lists them. */
  const Levels: seq<Level> := [GentleNudge, FriendlyDebate, StubbornFriend, DevilsAdvocate, HardcoreSteelmanning]

  const Table: seq<LevelInfo> := [Info(GentleNudge), Info(FriendlyDebate), Info(StubbornFriend), Info(DevilsAdvocate), Info(HardcoreSteelmanning)]

  /** The level both components start with. */
  const DefaultName: string := "Stubborn Friend"

  /** `s` is the value of one of the five levels. */
  ghost predicate IsLevelName(s: string) {
    exists l :: Name(l) == s
  }

  /** `Array.prototype.find` on the table: the first entry whose value is `value`, if any. */
  function Find(table: seq<LevelInfo>, value: string): (r: Option<LevelInfo>)
    ensures r.None? <==> forall i :: 0 <= i < |table| ==> table[i].value != value
    ensures r.Some? ==> exists i :: 0 <= i < |table| && table[i] == r.value && r.value.value == value
                                    && forall j :: 0 <= j < i ==> table[j].value != value
  {
    if table == [] then None
    else if table[0].value == value then Some(table[0])
    else
      var rest := Find(table[1..], value);
      assert forall i :: 1 <= i < |table| ==> table[i] == table[1..][i - 1];
      rest
  }

  /** The table lists every level exactly once, in `Levels` order. */
  lemma TableListsEveryLevel()
    ensures |Table| == |Levels| == 5
    ensures forall i :: 0 <= i < 5 ==> Table[i] == Info(Levels[i])
    ensures forall l :: l in Levels
  {
    forall l ensures l in Levels {
      assert Levels[PositionOf(l)] == l;
    }
  }

  /** No two levels share a display value, so a stored value determines its level. */
  lemma NameInjective(l: Level, m: Level)
    ensures Name(l) == Name(m) <==> l == m
  {
  }

  /** The position of a level in the table. */
  function PositionOf(l: Level): (i: nat)
    ensures i < |Levels| && Levels[i] == l
  {
    match l
    case GentleNudge => 0
    case FriendlyDebate => 1
    case StubbornFriend => 2
    case DevilsAdvocate => 3
    case HardcoreSteelmanning => 4
  }

  /** The lookup of the current level always succeeds on a stored level value and yields that level's entry. */
  lemma {:induction false} FindLevel(l: Level)
    ensures Find(Table, Name(l)) == Some(Info(l))
  {
    var r := Find(Table, Name(l));
    assert Table[PositionOf(l)] == Info(l);
    var i :| 0 <= i < |Table| && Table[i] == r.value && r.value.value == Name(l);
    assert Table[i] == Info(Levels[i]);
    NameInjective(Levels[i], l);
  }

  /** The lookup fails exactly on strings that are no level's value. */
  lemma FindFailsOffTable(s: string)
    ensures Find(Table, s).None? <==> !IsLevelName(s)
  {
    if IsLevelName(s) {
      var l :| Name(l) == s;
      FindLevel(l);
    } else {
      forall i | 0 <= i < |Table| ensures Table[i].value != s {
        assert Table[i].value == Name(Levels[i]);
      }
    }
  }

  lemma DefaultIsLevel()
    ensures DefaultName == Name(StubbornFriend) && IsLevelName(DefaultName)
  {
  }
}
