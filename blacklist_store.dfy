/**
  The durable blacklist of the moderation bot (`load_blacklist`, `save_blacklist`): the two
  in-memory sets are written as one JSON object holding two lists, `user_ids` and
  `usernames`, and read back into sets. File access and JSON syntax are not modelled;
  a `StoredFile` value says what `load_blacklist` finds.
*/
module BlacklistStore {

  /** `BLACKLIST_USER_IDS` and `BLACKLIST_USERNAMES` taken together. */
  datatype Blacklist = Blacklist(userIds: set<int>, usernames: set<string>)

  const Empty := Blacklist({}, {})

  /**
    One key of the stored object as `set(data.get(key, []))` sees it: the key is absent
    (read as an empty list), holds a list, or holds a value `set` raises on (such as `null`
    or a number).
  */
  datatype Field<T> = Absent | List(items: seq<T>) | NotAList

  /**
    What `load_blacklist` finds: no file, a file that cannot be opened or parsed as a
    JSON object, or an object with its two keys.
  */
  datatype StoredFile = NoFile | Unreadable | Stored(userIds: Field<int>, usernames: Field<string>)

  /** The values a list holds, as `set(list)` collects them. */
  function Elements<T>(xs: seq<T>): set<T> {
    set x | x in xs
  }

  /** No value is listed twice. */
  predicate Distinct<T(==)>(xs: seq<T>) {
    forall i, j :: 0 <= i < j < |xs| ==> xs[i] != xs[j]
  }

  /** `xs` is a `list(s)`: every element of `s` exactly once, in some order. */
  predicate Lists<T(==)>(xs: seq<T>, s: set<T>) {
    Distinct(xs) && Elements(xs) == s
  }

  /**
    `load_blacklist` applied to the sets `before`. Nothing is assigned when there is no
    file, when it cannot be read, or when `user_ids` is not a list; the ids are assigned
    first, so a bad `usernames` value leaves the new ids with the old names.
  */
  function Load(f: StoredFile, before: Blacklist): (b: Blacklist)
    ensures f.NoFile? || f.Unreadable? ==> b == before
    ensures f.Stored? && f.userIds.NotAList? ==> b == before
    ensures f.Stored? && f.userIds.List? ==> b.userIds == Elements(f.userIds.items)
    ensures f.Stored? && f.userIds.Absent? ==> b.userIds == {}
    ensures f.Stored? && !f.userIds.NotAList? && f.usernames.List? ==> b.usernames == Elements(f.usernames.items)
    ensures f.Stored? && !f.userIds.NotAList? && f.usernames.Absent? ==> b.usernames == {}
    ensures f.Stored? && !f.userIds.NotAList? && f.usernames.NotAList? ==> b.usernames == before.usernames
  {
    match f
    case NoFile => before
    case Unreadable => before
    case Stored(ids, names) =>
      if ids.NotAList? then before
      else
        var newIds := if ids.List? then Elements(ids.items) else {};
        if names.NotAList? then Blacklist(newIds, before.usernames)
        else if names.List? then Blacklist(newIds, Elements(names.items))
        else Blacklist(newIds, {})
  }

  /** `list(s)`: the elements of a set in the set's own iteration order, which is left open. */
  ghost function ListOf<T>(s: set<T>): (xs: seq<T>)
    decreases s
  {
    if s == {} then []
    else
      var x :| x in s;
      [x] + ListOf(s - {x})
  }

  /** `list(s)` holds every element of `s` exactly once. */
  lemma {:induction false} ListOfLists<T>(s: set<T>)
    ensures Lists(ListOf(s), s)
    ensures |ListOf(s)| == |s|
    decreases s
  {
    if s != {} {
      var x :| x in s && ListOf(s) == [x] + ListOf(s - {x});
      ListOfLists(s - {x});
      var rest := ListOf(s - {x});
      assert Elements([x] + rest) == {x} + Elements(rest);
      ConsDistinct(x, rest);
    }
  }

  /** Putting a new value in front of a list without repeats keeps it without repeats. */
  lemma ConsDistinct<T>(x: T, rest: seq<T>)
    requires Distinct(rest) && x !in rest
    ensures Distinct([x] + rest)
  {
    var xs := [x] + rest;
    forall i, j | 0 <= i < j < |xs| ensures xs[i] != xs[j] {
      assert xs[j] == rest[j - 1];
      if i > 0 {
        assert xs[i] == rest[i - 1];
      }
    }
  }

  /** The object `save_blacklist` writes for the sets `b`. */
  ghost function Image(b: Blacklist): StoredFile {
    Stored(List(ListOf(b.userIds)), List(ListOf(b.usernames)))
  }

  /**
    Reading back a saved object restores both sets exactly, whatever order the lists
    were written in and whatever the sets held before.
  */
  lemma LoadListed(xs: seq<int>, ys: seq<string>, b: Blacklist, before: Blacklist)
    requires Lists(xs, b.userIds) && Lists(ys, b.usernames)
    ensures Load(Stored(List(xs), List(ys)), before) == b
  {
  }

  /** Round trip: `load_blacklist` after `save_blacklist` gives back the saved sets. */
  lemma LoadAfterSave(b: Blacklist, before: Blacklist)
    ensures Load(Image(b), before) == b
  {
    ListOfLists(b.userIds);
    ListOfLists(b.usernames);
    LoadListed(ListOf(b.userIds), ListOf(b.usernames), b, before);
  }
}
