/** The gallery's list logic over the stored entries: save with a cap of 3,
    delete by id, the legacy migration and cleanup applied when rendering,
    and newest-first display. Storage and JSON encoding are not modelled.
    An absent string field and an empty one are both the empty string, as
    both are falsy in the source's tests. */
module Gallery {

  const Capacity: nat := 3
  /** Entries whose art data is not longer than this are dropped on render. */
  const MinArtLength: nat := 100

  /** A stored entry; `legacyData` is the deprecated `data` field. */
  datatype Item = Item(id: int, artData: string, sourceData: string, legacyData: string)

  datatype SaveResult = GalleryFull | Saved(stored: seq<Item>)

  /** What a render shows (newest first) and what storage holds afterwards. */
  datatype Rendered = Rendered(shown: seq<Item>, stored: seq<Item>)

  /** No stored entry carries `id`. */
  predicate Absent(s: seq<Item>, id: int)
  {
    forall i :: 0 <= i < |s| ==> s[i].id != id
  }

  predicate UniqueIds(s: seq<Item>)
  {
    forall i, j :: 0 <= i < j < |s| ==> s[i].id != s[j].id
  }

  /** The save button: rejected when 3 or more entries are stored, otherwise
      the new entry is appended at the end. */
  function Save(stored: seq<Item>, id: int, art: string, source: string): (r: SaveResult)
    ensures r.GalleryFull? <==> |stored| >= Capacity
    ensures r.Saved? ==> |r.stored| == |stored| + 1 && r.stored[..|stored|] == stored &&
                         r.stored[|stored|] == Item(id, art, source, "")
  {
    if |stored| >= Capacity then GalleryFull else Saved(stored + [Item(id, art, source, "")])
  }

  /** `saved.filter(item => item.id !== id)`. */
  function Delete(stored: seq<Item>, id: int): (r: seq<Item>)
    ensures forall it :: it in r <==> it in stored && it.id != id
    ensures |r| <= |stored|
    decreases |stored|
  {
    if stored == [] then []
    else (if stored[0].id != id then [stored[0]] else []) + Delete(stored[1..], id)
  }

  /** Deleting distributes over concatenation, so the kept entries stay in
      their original order. */
  lemma {:induction false} DeleteAppend(a: seq<Item>, b: seq<Item>, id: int)
    ensures Delete(a + b, id) == Delete(a, id) + Delete(b, id)
    decreases |a|
  {
    if a == [] {
      assert a + b == b;
    } else {
      assert (a + b)[0] == a[0];
      assert (a + b)[1..] == a[1..] + b;
      DeleteAppend(a[1..], b, id);
    }
  }

  /** Deleting an id that is not stored changes nothing. */
  lemma {:induction false} DeleteAbsent(stored: seq<Item>, id: int)
    requires Absent(stored, id)
    ensures Delete(stored, id) == stored
    decreases |stored|
  {
    if stored != [] {
      assert Absent(stored[1..], id) by {
        forall i | 0 <= i < |stored[1..]| ensures stored[1..][i].id != id {
          assert stored[1..][i] == stored[i + 1];
        }
      }
      DeleteAbsent(stored[1..], id);
      assert [stored[0]] + stored[1..] == stored;
    }
  }

  /** With distinct ids, no entry other than entry `k` carries its id. */
  lemma OthersLackId(stored: seq<Item>, k: nat)
    requires UniqueIds(stored) && k < |stored|
    ensures Absent(stored[..k], stored[k].id) && Absent(stored[k + 1..], stored[k].id)
  {
    var before, after := stored[..k], stored[k + 1..];
    forall i | 0 <= i < |before| ensures before[i].id != stored[k].id {
      assert before[i] == stored[i];
    }
    forall i | 0 <= i < |after| ensures after[i].id != stored[k].id {
      assert after[i] == stored[k + 1 + i];
    }
  }

  /** Deleting the id of the one entry that carries it removes just that entry. */
  lemma DeleteMiddle(before: seq<Item>, x: Item, after: seq<Item>)
    requires Absent(before, x.id) && Absent(after, x.id)
    ensures Delete(before + [x] + after, x.id) == before + after
  {
    DeleteAbsent(before, x.id);
    DeleteAbsent(after, x.id);
    assert Delete([x], x.id) == [] by {
      assert [x][1..] == [];
    }
    DeleteAppend(before, [x], x.id);
    assert Delete(before + [x], x.id) == before by {
      assert before + [] == before;
    }
    DeleteAppend(before + [x], after, x.id);
  }

  /** With distinct ids, deleting the id of entry `k` removes exactly that
      entry and keeps the others in insertion order. */
  lemma DeleteKnownId(stored: seq<Item>, k: nat)
    requires UniqueIds(stored) && k < |stored|
    ensures Delete(stored, stored[k].id) == stored[..k] + stored[k + 1..]
  {
    OthersLackId(stored, k);
    assert stored == stored[..k] + [stored[k]] + stored[k + 1..];
    DeleteMiddle(stored[..k], stored[k], stored[k + 1..]);
  }

  /** Saving under a fresh id and then deleting that id restores the list. */
  lemma SaveThenDelete(stored: seq<Item>, id: int, art: string, source: string)
    requires |stored| < Capacity && Absent(stored, id)
    ensures Save(stored, id, art, source).Saved?
    ensures Delete(Save(stored, id, art, source).stored, id) == stored
  {
    var item := Item(id, art, source, "");
    DeleteAppend(stored, [item], id);
    DeleteAbsent(stored, id);
    assert Save(stored, id, art, source).stored == stored + [item];
    assert Delete([item], id) == [] by {
      assert [item][1..] == [];
    }
  }

  /** An empty gallery accepts a save, which stores one entry under the save
      time as its id. */
  lemma FirstSave(id: int, art: string, source: string)
    ensures Save([], id, art, source) == Saved([Item(id, art, source, "")])
  {
  }

  /** Legacy entries with `data` and no `artData` get `artData` copied from it. */
  function Migrate(it: Item): (r: Item)
    ensures r.id == it.id && r.sourceData == it.sourceData && r.legacyData == it.legacyData
    ensures it.artData != "" || it.legacyData == "" ==> r == it
    ensures it.artData == "" ==> r.artData == it.legacyData
  {
    if it.legacyData != "" && it.artData == "" then it.(artData := it.legacyData) else it
  }

  function MigrateAll(s: seq<Item>): (r: seq<Item>)
    ensures |r| == |s| && forall i :: 0 <= i < |s| ==> r[i] == Migrate(s[i])
    decreases |s|
  {
    if s == [] then [] else [Migrate(s[0])] + MigrateAll(s[1..])
  }

  predicate Displayable(it: Item)
  {
    |it.artData| > MinArtLength
  }

  /** `filter(item => item.artData && item.artData.length > 100)`. */
  function KeepDisplayable(s: seq<Item>): (r: seq<Item>)
    ensures forall it :: it in r <==> it in s && Displayable(it)
    ensures |r| <= |s|
    decreases |s|
  {
    if s == [] then []
    else (if Displayable(s[0]) then [s[0]] else []) + KeepDisplayable(s[1..])
  }

  lemma {:induction false} KeepDisplayableAppend(a: seq<Item>, b: seq<Item>)
    ensures KeepDisplayable(a + b) == KeepDisplayable(a) + KeepDisplayable(b)
    decreases |a|
  {
    if a == [] {
      assert a + b == b;
    } else {
      assert (a + b)[0] == a[0];
      assert (a + b)[1..] == a[1..] + b;
      KeepDisplayableAppend(a[1..], b);
    }
  }

  /** A list of displayable entries passes the filter unchanged. */
  lemma {:induction false} KeepDisplayableOfDisplayable(s: seq<Item>)
    requires forall i :: 0 <= i < |s| ==> Displayable(s[i])
    ensures KeepDisplayable(s) == s
    decreases |s|
  {
    if s != [] {
      KeepDisplayableOfDisplayable(s[1..]);
    }
  }

  /** Keep only the last 3 entries. */
  function KeepLast(s: seq<Item>): (r: seq<Item>)
    ensures |r| == (if |s| < Capacity then |s| else Capacity)
    ensures forall i :: 0 <= i < |r| ==> r[i] == s[|s| - |r| + i]
  {
    if |s| > Capacity then s[|s| - Capacity..] else s
  }

  /** The migration and cleanup `renderGallery` applies. */
  function Normalise(stored: seq<Item>): (r: seq<Item>)
    ensures |r| <= Capacity
    ensures forall i :: 0 <= i < |r| ==> Displayable(r[i])
  {
    var kept := KeepDisplayable(MigrateAll(stored));
    assert forall i :: 0 <= i < |kept| ==> Displayable(kept[i]) by {
      forall i | 0 <= i < |kept| ensures Displayable(kept[i]) {
        assert kept[i] in kept;
      }
    }
    KeepLast(kept)
  }

  /** The entries that survive are the last (at most three) displayable ones,
      in stored order. */
  lemma NormaliseIsSuffix(stored: seq<Item>)
    ensures var kept := KeepDisplayable(MigrateAll(stored));
      Normalise(stored) == kept[|kept| - |Normalise(stored)|..] &&
      |Normalise(stored)| == (if |kept| < Capacity then |kept| else Capacity)
  {
  }

  /** Migrating an entry that already has art data changes nothing, and a
      migrated displayable entry is its own migration. */
  lemma {:induction false} MigrateAllIdempotent(s: seq<Item>)
    ensures MigrateAll(MigrateAll(s)) == MigrateAll(s)
  {
    var m := MigrateAll(s);
    var mm := MigrateAll(m);
    assert |mm| == |m|;
    forall i | 0 <= i < |m| ensures mm[i] == m[i] {
      assert m[i] == Migrate(s[i]);
    }
  }

  /** Rendering twice shows the same as rendering once. */
  lemma NormaliseIdempotent(stored: seq<Item>)
    ensures Normalise(Normalise(stored)) == Normalise(stored)
  {
    var n := Normalise(stored);
    var m := MigrateAll(n);
    assert m == n by {
      forall i | 0 <= i < |n| ensures m[i] == n[i] {
        assert Displayable(n[i]);
      }
    }
    KeepDisplayableOfDisplayable(n);
  }

  /** `[...saved].reverse()`: newest first. */
  function Reverse(s: seq<Item>): (r: seq<Item>)
    ensures |r| == |s|
    ensures forall i :: 0 <= i < |s| ==> r[i] == s[|s| - 1 - i]
    decreases |s|
  {
    if s == [] then [] else Reverse(s[1..]) + [s[0]]
  }

  /** `renderGallery`: shows the normalised list newest first, and writes it
      back to storage only when it had to drop entries beyond the last three. */
  function Render(stored: seq<Item>): (r: Rendered)
    ensures |r.shown| == |Normalise(stored)| <= Capacity
    ensures forall i :: 0 <= i < |r.shown| ==> r.shown[i] == Normalise(stored)[|r.shown| - 1 - i]
    ensures r.stored == (if |KeepDisplayable(MigrateAll(stored))| > Capacity then Normalise(stored) else stored)
  {
    var kept := KeepDisplayable(MigrateAll(stored));
    var n := Normalise(stored);
    Rendered(Reverse(n), if |kept| > Capacity then n else stored)
  }

  /** Ids rise along the list, as save timestamps do. */
  predicate IncreasingIds(s: seq<Item>)
  {
    forall i, j :: 0 <= i < j < |s| ==> s[i].id < s[j].id
  }

  /** The cleanup filter only keeps stored entries, so a lower bound on the
      stored ids bounds the kept ones. */
  lemma KeepDisplayableAbove(t: seq<Item>, bound: int)
    requires forall i :: 0 <= i < |t| ==> bound < t[i].id
    ensures forall k :: 0 <= k < |KeepDisplayable(t)| ==> bound < KeepDisplayable(t)[k].id
  {
    var rest := KeepDisplayable(t);
    forall k | 0 <= k < |rest| ensures bound < rest[k].id {
      assert rest[k] in t;
    }
  }

  /** The cleanup filter keeps a subsequence, so rising ids keep rising. */
  lemma {:induction false} KeepDisplayableIncreasing(s: seq<Item>)
    requires IncreasingIds(s)
    ensures IncreasingIds(KeepDisplayable(s))
    decreases |s|
  {
    if s != [] {
      var t := s[1..];
      assert IncreasingIds(t) by {
        forall i, j | 0 <= i < j < |t| ensures t[i].id < t[j].id {
          assert t[i] == s[i + 1] && t[j] == s[j + 1];
        }
      }
      KeepDisplayableIncreasing(t);
      assert forall i :: 0 <= i < |t| ==> s[0].id < t[i].id by {
        forall i | 0 <= i < |t| ensures s[0].id < t[i].id {
          assert t[i] == s[i + 1];
        }
      }
      KeepDisplayableAbove(t, s[0].id);
      IncreasingCons(s[0], KeepDisplayable(t), Displayable(s[0]));
    }
  }

  /** Putting an entry with a smaller id in front keeps ids rising. */
  lemma IncreasingCons(x: Item, rest: seq<Item>, keep: bool)
    requires IncreasingIds(rest)
    requires forall k :: 0 <= k < |rest| ==> x.id < rest[k].id
    ensures IncreasingIds((if keep then [x] else []) + rest)
  {
    var r := (if keep then [x] else []) + rest;
    forall i, j | 0 <= i < j < |r| ensures r[i].id < r[j].id {
      if !keep {
        assert r[i] == rest[i] && r[j] == rest[j];
      } else if i == 0 {
        assert r[j] == rest[j - 1];
      } else {
        assert r[i] == rest[i - 1] && r[j] == rest[j - 1];
      }
    }
  }

  /** Migration keeps every id and trimming keeps a suffix, so entries stored
      in increasing id order are still in that order after the cleanup. */
  lemma NormaliseIncreasing(stored: seq<Item>)
    requires IncreasingIds(stored)
    ensures IncreasingIds(Normalise(stored))
  {
    var m := MigrateAll(stored);
    assert IncreasingIds(m) by {
      forall i, j | 0 <= i < j < |m| ensures m[i].id < m[j].id {
        assert m[i] == Migrate(stored[i]) && m[j] == Migrate(stored[j]);
      }
    }
    KeepDisplayableIncreasing(m);
    var kept := KeepDisplayable(m);
    var n := Normalise(stored);
    assert n == KeepLast(kept);
    forall i, j | 0 <= i < j < |n| ensures n[i].id < n[j].id {
      if |kept| > Capacity {
        assert n[i] == kept[|kept| - Capacity + i] && n[j] == kept[|kept| - Capacity + j];
      }
    }
  }

  /** Entries saved in increasing id order (ids are save timestamps) are
      shown with the newest first. */
  lemma ShownNewestFirst(stored: seq<Item>)
    requires IncreasingIds(stored)
    ensures forall i, j :: 0 <= i < j < |Render(stored).shown| ==> Render(stored).shown[i].id > Render(stored).shown[j].id
  {
    NormaliseIncreasing(stored);
  }

  // ---------------------------------------------------------------------
  // The save check counts stored entries, not shown ones.

  /** Three legacy entries without usable art data: none is shown, yet save
      reports the gallery as full, and there is nothing on screen to delete. */
  lemma FullGalleryShowsNothing()
    ensures var stale := [Item(1, "", "", ""), Item(2, "", "", ""), Item(3, "", "", "")];
      Render(stale).shown == [] && Save(stale, 4, "", "") == GalleryFull
  {
    var stale := [Item(1, "", "", ""), Item(2, "", "", ""), Item(3, "", "", "")];
    assert MigrateAll(stale) == stale;
    assert stale[1..][1..][1..] == [];
    assert KeepDisplayable(stale[1..][1..]) == [];
    assert KeepDisplayable(stale[1..]) == [];
    assert KeepDisplayable(stale) == [];
  }

  /** The save as evidently intended: the cap applies to the entries the
      gallery can show. */
  function SaveVisible(stored: seq<Item>, id: int, art: string, source: string): (r: SaveResult)
    ensures r.GalleryFull? <==> |Render(stored).shown| >= Capacity
    ensures r.Saved? ==> r.stored == stored + [Item(id, art, source, "")]
  {
    if |Normalise(stored)| >= Capacity then GalleryFull else Saved(stored + [Item(id, art, source, "")])
  }

  /** An entry with displayable art appended to the stored list is the last
      entry the cleanup keeps. */
  lemma NormaliseKeepsAppended(stored: seq<Item>, item: Item)
    requires Displayable(item)
    ensures |Normalise(stored + [item])| > 0 && Normalise(stored + [item])[|Normalise(stored + [item])| - 1] == item
  {
    var s := stored + [item];
    assert MigrateAll(s) == MigrateAll(stored) + [item] by {
      var a, b := MigrateAll(s), MigrateAll(stored) + [item];
      assert |a| == |b|;
      forall i | 0 <= i < |a| ensures a[i] == b[i] {
        if i < |stored| { assert s[i] == stored[i]; } else { assert s[i] == item; }
      }
    }
    KeepDisplayableAppend(MigrateAll(stored), [item]);
    assert KeepDisplayable([item]) == [item] by {
      assert [item][1..] == [];
    }
    var kept := KeepDisplayable(MigrateAll(s));
    assert kept[|kept| - 1] == item;
  }

  /** Under the intended save, a warning means three entries are on screen,
      and a saved entry with displayable art is shown first. */
  lemma SaveVisibleShowsNewEntry(stored: seq<Item>, id: int, art: string, source: string)
    requires |art| > MinArtLength
    ensures SaveVisible(stored, id, art, source).GalleryFull? ==> |Render(stored).shown| == Capacity
    ensures SaveVisible(stored, id, art, source).Saved? ==>
              |Render(SaveVisible(stored, id, art, source).stored).shown| > 0 &&
              Render(SaveVisible(stored, id, art, source).stored).shown[0] == Item(id, art, source, "")
  {
    if SaveVisible(stored, id, art, source).Saved? {
      NormaliseKeepsAppended(stored, Item(id, art, source, ""));
    }
  }
}
