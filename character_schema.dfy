/**
 * The character-creation schema: a name, a race and a class from fixed
 * lists, an optional backstory, and six whole-number stats from 1 to 20.
 * Only acceptance is modelled; unknown keys are ignored.
 */
module CharacterSchema {
  import opened Json

  const Races: seq<string> := ["Human", "Elf", "Dwarf", "Halfling", "Gnome", "Half-Elf", "Half-Orc", "Tiefling", "Dragonborn"]

  const Classes: seq<string> := ["Barbarian", "Bard", "Cleric", "Druid", "Fighter", "Monk", "Paladin", "Ranger", "Rogue", "Sorcerer", "Warlock", "Wizard"]

  const StatNames: seq<string> := ["strength", "dexterity", "constitution", "intelligence", "wisdom", "charisma"]

  /** `z.enum(options)`: a string among the options. */
  predicate IsMember(v: Value, options: seq<string>)
  {
    v.Str? && v.s in options
  }

  /** `z.number().int().min(1).max(20)` */
  predicate IsStat(v: Value)
  {
    v.Num? && v.n.Floor as real == v.n && 1.0 <= v.n <= 20.0
  }

  /** A `stats` object with all six stats present and in range. */
  predicate StatsAccepted(v: Value)
  {
    v.Obj? && forall k :: k in StatNames ==> IsStat(Get(v, k))
  }

  predicate NameAccepted(v: Value)
  {
    v.Str? && 2 <= |v.s| <= 30
  }

  /** `z.string().max(2000).optional()`: absent, or a string of at most 2000 characters. */
  predicate BackstoryAccepted(v: Value)
  {
    v == Undefined || (v.Str? && |v.s| <= 2000)
  }

  /** `CreateCharacterSchema` accepts `v`. */
  predicate CreateCharacterAccepts(v: Value)
  {
    && v.Obj?
    && NameAccepted(Get(v, "name"))
    && IsMember(Get(v, "race"), Races)
    && IsMember(Get(v, "class"), Classes)
    && BackstoryAccepted(Get(v, "backstory"))
    && StatsAccepted(Get(v, "stats"))
  }

  /** `v` with field `k` set to `x`. */
  function With(v: Value, k: string, x: Value): (r: Value)
    requires v.Obj?
    ensures r.Obj? && Get(r, k) == x
    ensures forall j :: j != k ==> Get(r, j) == Get(v, j)
  {
    Obj(v.fields[k := x])
  }

  /** `v` without field `k`. */
  function Without(v: Value, k: string): (r: Value)
    requires v.Obj?
    ensures r.Obj? && Get(r, k) == Undefined
    ensures forall j :: j != k ==> Get(r, j) == Get(v, j)
  {
    Obj(v.fields - {k})
  }

  /** An accepted character has an enumerated race and class, a 2-30 character name, and six stats in 1..20. */
  lemma AcceptedCharacterFields(v: Value)
    requires CreateCharacterAccepts(v)
    ensures Get(v, "race").s in Races && Get(v, "class").s in Classes
    ensures 2 <= |Get(v, "name").s| <= 30
    ensures Get(v, "backstory").Str? ==> |Get(v, "backstory").s| <= 2000
    ensures forall i :: 0 <= i < |StatNames| ==>
      var s := Get(Get(v, "stats"), StatNames[i]); s.Num? && 1.0 <= s.n <= 20.0
  {
  }

  /** A race outside the nine is rejected, whatever the rest of the body. */
  lemma UnknownRaceRejected(v: Value, race: string)
    requires v.Obj? && race !in Races
    ensures !CreateCharacterAccepts(With(v, "race", Str(race)))
  {
  }

  /** A class outside the twelve is rejected, whatever the rest of the body. */
  lemma UnknownClassRejected(v: Value, cls: string)
    requires v.Obj? && cls !in Classes
    ensures !CreateCharacterAccepts(With(v, "class", Str(cls)))
  {
  }

  /** Each stat is required: removing one rejects the body. */
  lemma MissingStatRejected(v: Value, i: nat)
    requires CreateCharacterAccepts(v) && i < |StatNames|
    ensures !CreateCharacterAccepts(With(v, "stats", Without(Get(v, "stats"), StatNames[i])))
  {
    var stats := Without(Get(v, "stats"), StatNames[i]);
    assert !IsStat(Get(stats, StatNames[i]));
  }

  /** A stat that is not a whole number in 1..20 is rejected. */
  lemma StatOutOfRangeRejected(v: Value, i: nat, x: real)
    requires CreateCharacterAccepts(v) && i < |StatNames|
    requires x < 1.0 || x > 20.0 || x.Floor as real != x
    ensures !CreateCharacterAccepts(With(v, "stats", With(Get(v, "stats"), StatNames[i], Num(x))))
  {
    var stats := With(Get(v, "stats"), StatNames[i], Num(x));
    assert !IsStat(Get(stats, StatNames[i]));
  }

  /** The backstory is optional: removing it keeps an accepted body accepted. */
  lemma BackstoryOptional(v: Value)
    requires CreateCharacterAccepts(v)
    ensures CreateCharacterAccepts(Without(v, "backstory"))
  {
  }

  const SampleStats := Obj(map["strength" := Num(18.0), "dexterity" := Num(12.0), "constitution" := Num(16.0),
                                "intelligence" := Num(10.0), "wisdom" := Num(9.0), "charisma" := Num(8.0)])

  /** The documented sample dwarf fighter is accepted; a name of one character is not. */
  lemma SampleCharacter()
    ensures CreateCharacterAccepts(Obj(map["name" := Str("Thorin Rochefer"), "race" := Str("Dwarf"), "class" := Str("Fighter"), "stats" := SampleStats]))
    ensures !CreateCharacterAccepts(Obj(map["name" := Str("X"), "race" := Str("Dwarf"), "class" := Str("Fighter"), "stats" := SampleStats]))
  {
    assert Races[2] == "Dwarf" && Classes[4] == "Fighter";
    forall k | k in StatNames ensures IsStat(Get(SampleStats, k)) {
      assert (18.0).Floor == 18 && (12.0).Floor == 12 && (16.0).Floor == 16;
      assert (10.0).Floor == 10 && (9.0).Floor == 9 && (8.0).Floor == 8;
    }
  }
}
