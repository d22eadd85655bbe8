/**
 * The static equipment unlock table (EQUIPMENT_DATA) and the lists of
 * equipment that leveling through a range of levels unlocks.
 */
module EquipmentTable {
  import opened Options

  datatype Slot = Weapon | Helmet | Armor | Shield | Cape | Crown

  /** One table entry: display name, icon, slot type and the visual style tag. */
  datatype Equipment = Equipment(name: string, icon: string, slot: Slot, style: string)

  const MinUnlockLevel := 2
  const MaxLevel := 10

  /** EQUIPMENT_DATA in order of unlock level: entry k is unlocked on reaching level k + 2. */
  const Table: seq<Equipment> := [
    Equipment("木劍", "🗡️", Weapon, "wooden-sword"),
    Equipment("皮帽", "🎩", Helmet, "leather-hat"),
    Equipment("布衣", "👕", Armor, "cloth-armor"),
    Equipment("鐵劍", "⚔️", Weapon, "iron-sword"),
    Equipment("木盾", "🛡️", Shield, "wooden-shield"),
    Equipment("鐵盔", "🪖", Helmet, "iron-helmet"),
    Equipment("鎖甲", "🧥", Armor, "chain-armor"),
    Equipment("魔法披風", "🌟", Cape, "magic-cape"),
    Equipment("王者冠冕", "👑", Crown, "king-crown")
  ]

  /** The entry unlocked on reaching `level`; only levels 2 to 10 have one. */
  function EntryFor(level: int): (r: Option<Equipment>)
    ensures r.Some? <==> MinUnlockLevel <= level <= MaxLevel
  {
    if MinUnlockLevel <= level <= MaxLevel then Some(Table[level - MinUnlockLevel]) else None
  }

  /** No two levels unlock the same piece of equipment. */
  lemma EntriesDistinct(i: int, j: int)
    requires EntryFor(i).Some? && EntryFor(j).Some?
    ensures EntryFor(i) == EntryFor(j) ==> i == j
  {
    assert forall a, b :: 0 <= a < b < |Table| ==> Table[a].style != Table[b].style;
  }

  /** The entry appended when a character goes up from level `to - 1` to `to`. */
  function UnlockAt(to: int): seq<Equipment>
  {
    match EntryFor(to)
    case Some(e) => [e]
    case None => []
  }

  /**
   * What leveling up from `from` to `to`, one level at a time, appends:
   * the entries of levels from + 1 .. to, in ascending order.
   */
  function UnlocksBetween(from: int, to: int): seq<Equipment>
    decreases to - from
  {
    if to <= from then [] else UnlocksBetween(from, to - 1) + UnlockAt(to)
  }

  /** The equipment of a character at `level` that started at level 1 with none. */
  function Unlocked(level: int): seq<Equipment>
  {
    UnlocksBetween(1, level)
  }

  /** Leveling through two consecutive ranges appends what the whole range appends. */
  lemma {:induction false} UnlocksBetweenSplit(a: int, m: int, b: int)
    requires a <= m <= b
    ensures UnlocksBetween(a, m) + UnlocksBetween(m, b) == UnlocksBetween(a, b)
    decreases b - m
  {
    if m < b {
      UnlocksBetweenSplit(a, m, b - 1);
      assert UnlocksBetween(a, m) + UnlocksBetween(m, b)
          == (UnlocksBetween(a, m) + UnlocksBetween(m, b - 1)) + UnlockAt(b);
    }
  }

  /**
   * Within levels 1..10 every level reached past `from` contributes exactly its
   * own table entry, once, in ascending order of level.
   */
  lemma {:induction false} UnlocksBetweenAt(from: int, to: int)
    decreases to - from
    requires 1 <= from <= to <= MaxLevel
    ensures |UnlocksBetween(from, to)| == to - from
    ensures forall k :: 0 <= k < to - from ==> EntryFor(from + 1 + k) == Some(UnlocksBetween(from, to)[k])
  {
    if from < to {
      UnlocksBetweenAt(from, to - 1);
      var prefix := UnlocksBetween(from, to - 1);
      assert UnlocksBetween(from, to) == prefix + [EntryFor(to).value];
      forall k | 0 <= k < to - from
        ensures EntryFor(from + 1 + k) == Some(UnlocksBetween(from, to)[k])
      {
        if k < to - 1 - from {
          assert UnlocksBetween(from, to)[k] == prefix[k];
        }
      }
    }
  }

  /** The equipment list of a character that started from level 1 holds no duplicate. */
  lemma UnlockedNoDuplicates(level: int)
    requires 1 <= level <= MaxLevel
    ensures forall i, j :: 0 <= i < j < |Unlocked(level)| ==> Unlocked(level)[i] != Unlocked(level)[j]
  {
    UnlocksBetweenAt(1, level);
    forall i, j | 0 <= i < j < |Unlocked(level)|
      ensures Unlocked(level)[i] != Unlocked(level)[j]
    {
      EntriesDistinct(2 + i, 2 + j);
    }
  }
}
