/** Names, identifiers and the on-disk directory entry (src/ondisk.rs). */
module Names {

  datatype Option<+T> = None | Some(value: T)

  type Byte = b: int | 0 <= b < 256

  /** A file name, as the raw bytes the directory stores. */
  type Name = seq<Byte>

  /** Identifiers and inode bodies are only ever compared, so numbers stand for them. */
  type Uuid = nat
  type Inode = nat

  /** A name in a directory. */
  datatype Loc = Loc(dir: Uuid, name: Name)

  /** Longest name an entry can hold; the field has one more byte for the NUL. */
  const NAME_LEN := 255

  /** What the code ever asks of a name field: the placeholder, or the bytes before its first NUL. */
  datatype Stored = Placeholder | Text(name: Name)

  /** A directory entry: the child's cached inode, its uuid and its stored name. */
  datatype Entry = Entry(inode: Inode, uuid: Uuid, stored: Stored)

  function Get<K, V>(m: map<K, V>, k: K): Option<V> {
    if k in m then Some(m[k]) else None
  }

  function Without<K, V>(m: map<K, V>, k: K): map<K, V> {
    map x | x in m && x != k :: m[x]
  }

  /** The name field written for `name`: cut to 255 bytes, then filled up with NUL. */
  function Padded(name: Name): seq<Byte> {
    var kept := if |name| > NAME_LEN then name[..NAME_LEN] else name;
    kept + seq(NAME_LEN + 1 - |kept|, _ => 0)
  }

  /** The bytes of a field before its first NUL. */
  function UpToNul(field: seq<Byte>): Name {
    if field == [] || field[0] == 0 then [] else [field[0]] + UpToNul(field[1..])
  }

  /** The placeholder hyperfile may insert: 255 bytes 0xFF and a NUL. */
  function DummyField(): seq<Byte> {
    seq(NAME_LEN, _ => 255) + [0]
  }

  function ReadField(field: seq<Byte>): Stored {
    if field == DummyField() then Placeholder else Text(UpToNul(field))
  }

  function EntryFor(inode: Inode, uuid: Uuid, name: Name): Entry {
    Entry(inode, uuid, ReadField(Padded(name)))
  }

  predicate IsNamed(e: Entry, name: Name) {
    e.stored == Text(name)
  }

  /** The names an entry can carry without loss and without looking like a placeholder. */
  predicate Storable(name: Name) {
    |name| <= NAME_LEN && 0 !in name && Padded(name) != DummyField()
  }

  lemma {:induction false} UpToNulStops(field: seq<Byte>)
    ensures 0 !in UpToNul(field) && |UpToNul(field)| <= |field|
  {
    if field != [] && field[0] != 0 {
      UpToNulStops(field[1..]);
    }
  }

  lemma {:induction false} UpToNulOfPadding(name: Name, k: nat)
    requires 0 !in name && k > 0
    ensures UpToNul(name + seq(k, _ => 0)) == name
  {
    var field := name + seq(k, _ => 0);
    if name != [] {
      assert field[1..] == name[1..] + seq(k, _ => 0);
      UpToNulOfPadding(name[1..], k);
    }
  }

  /**
   * An entry carries the child it was made for, and answers to the name it was made for exactly
   * when that name is storable: at most 255 bytes, none of them NUL, and not 255 times 0xFF.
   */
  lemma NameReadsBack(inode: Inode, uuid: Uuid, name: Name)
    ensures EntryFor(inode, uuid, name).inode == inode && EntryFor(inode, uuid, name).uuid == uuid
    ensures IsNamed(EntryFor(inode, uuid, name), name) <==> Storable(name)
    ensures Storable(name) <==> |name| <= 255 && 0 !in name && !(|name| == 255 && forall b :: b in name ==> b == 255)
  {
    var field := Padded(name);
    UpToNulStops(field);
    if |name| <= NAME_LEN && 0 !in name {
      OnlyThePlaceholder(name);
      UpToNulOfPadding(name, NAME_LEN + 1 - |name|);
    } else if UpToNul(field) == name {
      UpToNulMeetsNul(field, NAME_LEN);
    }
  }

  /** `kept` is all of the name that an entry can store: up to its first NUL, and at most 255 bytes. */
  ghost predicate IsWhatFits(name: Name, kept: Name) {
    && kept <= name && 0 !in kept && |kept| <= 255
    && (|kept| == |name| || |kept| == 255 || name[|kept|] == 0)
  }

  /** Whatever the name, its entry stores as much of it as fits, or a placeholder for 255 leading bytes 0xFF. */
  lemma StoredNameIs(inode: Inode, uuid: Uuid, name: Name)
    ensures match EntryFor(inode, uuid, name).stored
      case Text(kept) => IsWhatFits(name, kept)
      case Placeholder => |name| >= 255 && forall i :: 0 <= i < 255 ==> name[i] == 255
  {
    var field := Padded(name);
    UpToNulIsPrefix(field);
    var kept := UpToNul(field);
    assert field[NAME_LEN] == 0;
    UpToNulMeetsNul(field, NAME_LEN);
    if |name| < 255 {
      assert field[|name|] == 0;
      UpToNulMeetsNul(field, |name|);
    }
    assert forall i :: 0 <= i < |kept| ==> kept[i] == field[i] == name[i];
    if field == DummyField() {
      assert forall i :: 0 <= i < 255 ==> field[i] == DummyField()[i] == 255;
    }
  }

  lemma {:induction false} UpToNulIsPrefix(field: seq<Byte>)
    ensures var kept := UpToNul(field);
      kept <= field && 0 !in kept && (|kept| == |field| || field[|kept|] == 0)
  {
    if field != [] && field[0] != 0 {
      UpToNulIsPrefix(field[1..]);
    }
  }

  /** The one name of fit length without NUL that looks like the placeholder. */
  lemma OnlyThePlaceholder(name: Name)
    requires |name| <= NAME_LEN && 0 !in name
    ensures Padded(name) == DummyField() <==> |name| == 255 && forall b :: b in name ==> b == 255
  {
    var field := Padded(name);
    if field == DummyField() {
      assert field[|name|] == 0;
      forall i | 0 <= i < |name| ensures name[i] == 255 {
        assert field[i] == name[i] && DummyField()[i] == 255;
      }
    } else if |name| == 255 {
      var i :| 0 <= i < 256 && field[i] != DummyField()[i];
      assert i < 255 ==> name[i] in name;
    }
  }

  lemma {:induction false} UpToNulMeetsNul(field: seq<Byte>, i: nat)
    requires i < |field| && field[i] == 0
    ensures |UpToNul(field)| <= i
  {
    if field[0] != 0 {
      UpToNulMeetsNul(field[1..], i - 1);
    }
  }
}
