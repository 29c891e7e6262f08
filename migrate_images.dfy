/**
 * The one-off image URL migration: every product's URL is cleaned of whitespace, a
 * doubled "jpegeg" ending is repaired, the first "hoto-" is rewritten to "photo-", and
 * the row is written only when the result differs from what is stored.
 */
module MigrateImages {
  import opened Common
  import opened Text
  import opened Db

  /** Tabs and line breaks removed, the ends trimmed, then every whitespace character removed. */
  function CleanUrl(u: string): (r: string)
    ensures |r| <= |u|
    ensures forall i :: 0 <= i < |r| ==> !IsJsWhitespace(r[i])
  {
    RemoveWhitespace(Trim(Remove(u, {'\n', '\r', '\t'})))
  }

  lemma {:induction false} RemoveWhitespaceAbsent(s: string)
    requires forall i :: 0 <= i < |s| ==> !IsJsWhitespace(s[i])
    ensures RemoveWhitespace(s) == s
  {
    if s != [] {
      RemoveWhitespaceAbsent(s[1..]);
    }
  }

  /** A URL without whitespace is already clean. */
  lemma CleanOfSpaceless(u: string)
    requires forall i :: 0 <= i < |u| ==> !IsJsWhitespace(u[i])
    ensures CleanUrl(u) == u
  {
    RemoveAbsent(u, {'\n', '\r', '\t'});
    TrimOfTrimmed(u);
    RemoveWhitespaceAbsent(u);
  }

  /** The URL the migration computes, as written: the "hoto-" pattern also matches inside "photo-". */
  function FinalizeUrl(u: string): (r: string)
    ensures var c := CleanUrl(u); !EndsWith(c, "jpegeg") && !Contains(c, "hoto-") ==> r == c
    ensures var c := CleanUrl(u); EndsWith(c, "jpegeg") && !Contains(ReplaceSuffix(c, "jpegeg", "jpeg"), "hoto-") ==>
              EndsWith(r, "jpeg") && |r| == |c| - 2
  {
    ReplaceFirst(ReplaceSuffix(CleanUrl(u), "jpegeg", "jpeg"), "hoto-", "photo-")
  }

  /**
   * Every clean URL whose first "hoto-" is the tail of a "photo-" is rewritten to hold
   * "pphoto-" instead, so a sound "photo-" URL is corrupted (and written back).
   */
  lemma FinalizeCorruptsPhotoUrls(u: string, k: nat)
    requires forall i :: 0 <= i < |u| ==> !IsJsWhitespace(u[i])
    requires !EndsWith(u, "jpegeg")
    requires OccursAt(u, "photo-", k)
    requires forall j: nat :: j <= k ==> !OccursAt(u, "hoto-", j)
    ensures OccursAt(FinalizeUrl(u), "pphoto-", k)
    ensures FinalizeUrl(u) != u
  {
    FinalizeOfClean(u);
    PhotoHoldsHoto(u, k);
    ReplaceFirstAt(u, "hoto-", "photo-", k + 1);
    PphotoAtSeam(u[..k + 1], u[k + 6..]);
  }

  /** "photo-" at `k` is a 'p' at `k` followed by "hoto-". */
  lemma PhotoHoldsHoto(u: string, k: nat)
    requires OccursAt(u, "photo-", k)
    ensures OccursAt(u, "hoto-", k + 1) && u[k] == 'p'
  {
    var w := u[k..k + 6];
    assert w == "photo-";
    assert u[k + 1..k + 6] == w[1..];
    assert u[k] == w[0];
  }

  /** Writing "photo-" right after a 'p' leaves "pphoto-" one position before the seam. */
  lemma PphotoAtSeam(a: string, c: string)
    requires a != [] && a[|a| - 1] == 'p'
    ensures OccursAt(a + "photo-" + c, "pphoto-", |a| - 1)
    ensures |a + "photo-" + c| == |a| + |c| + 6
  {
    InfixAtSeam(a, "photo-", c);
    assert [a[|a| - 1]] + "photo-" == "pphoto-";
  }

  /** The last character of `a` followed by all of `b`, read out of `a + b + c`. */
  lemma InfixAtSeam(a: string, b: string, c: string)
    requires a != []
    ensures (a + b + c)[|a| - 1..|a| + |b|] == [a[|a| - 1]] + b
  {
    var r := a + b + c;
    var w := r[|a| - 1..|a| + |b|];
    assert |w| == 1 + |b|;
    assert forall i :: 0 <= i < |b| ==> w[1 + i] == b[i];
    assert w[0] == a[|a| - 1];
  }

  /** The file name of a Pexels photo is turned into "pexels-pphoto-1.jpeg". */
  lemma PexelsPhotoUrlCorrupted()
    ensures OccursAt(FinalizeUrl("pexels-photo-1.jpeg"), "pphoto-", 7)
  {
    var u := "pexels-photo-1.jpeg";
    assert forall i :: 0 <= i < |u| ==> !IsJsWhitespace(u[i]);
    assert u[|u| - 6..] != "jpegeg";
    assert u[7..13] == "photo-";
    forall j: nat | j <= 7
      ensures !OccursAt(u, "hoto-", j)
    {
      assert u[j..j + 5][1] == u[j + 1] != "hoto-"[1];
    }
    FinalizeCorruptsPhotoUrls(u, 7);
  }

  /** On a clean URL without the "jpegeg" ending only the "hoto-" rewrite acts. */
  lemma FinalizeOfClean(u: string)
    requires forall i :: 0 <= i < |u| ==> !IsJsWhitespace(u[i])
    requires !EndsWith(u, "jpegeg")
    ensures FinalizeUrl(u) == ReplaceFirst(u, "hoto-", "photo-")
  {
    CleanOfSpaceless(u);
  }

  /** The rewrite the comment beside it describes: the "pexels-hoto-" corruption, and only it. */
  function RepairUrl(u: string): (r: string)
    ensures var c := CleanUrl(u); !EndsWith(c, "jpegeg") && !Contains(c, "pexels-hoto-") ==> r == c
    ensures var c := CleanUrl(u); EndsWith(c, "jpegeg") && !Contains(ReplaceSuffix(c, "jpegeg", "jpeg"), "pexels-hoto-") ==>
              EndsWith(r, "jpeg") && |r| == |c| - 2
  {
    ReplaceFirst(ReplaceSuffix(CleanUrl(u), "jpegeg", "jpeg"), "pexels-hoto-", "pexels-photo-")
  }

  /** The repair leaves a sound URL as it is, so the migration writes nothing for it. */
  lemma RepairLeavesSoundUrls(u: string)
    requires forall i :: 0 <= i < |u| ==> !IsJsWhitespace(u[i])
    requires !EndsWith(u, "jpegeg")
    requires !Contains(u, "pexels-hoto-")
    ensures RepairUrl(u) == u
  {
    CleanOfSpaceless(u);
  }

  /** The repair turns the first "pexels-hoto-" into "pexels-photo-" and leaves the rest. */
  lemma RepairFixesPexelsUrls(u: string, k: nat)
    requires forall i :: 0 <= i < |u| ==> !IsJsWhitespace(u[i])
    requires !EndsWith(u, "jpegeg")
    requires OccursAt(u, "pexels-hoto-", k)
    requires forall j: nat :: j < k ==> !OccursAt(u, "pexels-hoto-", j)
    ensures RepairUrl(u) == u[..k] + "pexels-photo-" + u[k + 12..]
  {
    CleanOfSpaceless(u);
    ReplaceFirstAt(u, "pexels-hoto-", "pexels-photo-", k);
  }

  /** A doubled "jpegeg" ending comes out as "jpeg" under both rewrites. */
  lemma JpegegEndingRepaired(u: string)
    requires forall i :: 0 <= i < |u| ==> !IsJsWhitespace(u[i])
    requires EndsWith(u, "jpegeg")
    ensures var v := ReplaceSuffix(CleanUrl(u), "jpegeg", "jpeg");
      EndsWith(v, "jpeg") && |v| == |u| - 2
  {
    CleanOfSpaceless(u);
  }

  /**
   * The migration loop over the products in id order with the rewrite `fix`: each URL is
   * replaced by its rewrite, and `written` lists, in order, the ids whose URL changed.
   */
  method Migrate(db: Database, fix: string -> string) returns (written: seq<int>)
    requires db.Valid()
    modifies db`products
    ensures db.Valid()
    ensures db.products.Keys == old(db.products.Keys)
    ensures forall id :: id in db.products ==> db.products[id] == Fixed(old(db.products)[id], fix)
    ensures forall id :: id in written <==> id in old(db.products) && Fixed(old(db.products)[id], fix) != old(db.products)[id]
    ensures forall i, j :: 0 <= i < j < |written| ==> written[i] < written[j]
  {
    written := MigrateAll(db, fix);
    MigrationResult(old(db.products), fix, db.nextProductId);
  }

  /** The loop itself, stated against the migrated table and the changed ids. */
  method MigrateAll(db: Database, fix: string -> string) returns (written: seq<int>)
    requires 1 <= db.nextProductId
    requires forall id :: id in db.products ==> 1 <= id
    modifies db`products
    ensures db.products == Migrated(old(db.products), fix, db.nextProductId)
    ensures written == ChangedIds(old(db.products), fix, 1, db.nextProductId)
  {
    ghost var before := db.products;
    written := [];
    var id := 1;
    assert Migrated(before, fix, id) == before;
    while id < db.nextProductId
      invariant 1 <= id <= db.nextProductId
      invariant db.products == Migrated(before, fix, id)
      invariant written == ChangedIds(before, fix, 1, id)
    {
      var changed := MigrateOne(db, id, fix);
      MigratedStep(before, fix, id);
      if changed {
        written := written + [id];
      }
      id := id + 1;
    }
  }

  /** Once every id below `next` is migrated, every row holds its rewrite. */
  lemma MigrationResult(before: map<int, Product>, fix: string -> string, next: int)
    requires forall id :: id in before ==> 1 <= id < next
    ensures Migrated(before, fix, next).Keys == before.Keys
    ensures forall id :: id in before ==> Migrated(before, fix, next)[id] == Fixed(before[id], fix)
    ensures forall id :: id in ChangedIds(before, fix, 1, next) <==> id in before && Fixed(before[id], fix) != before[id]
  {
  }

  /** The table once the rows with an id below `bound` have been migrated. */
  function Migrated(before: map<int, Product>, fix: string -> string, bound: int): (m: map<int, Product>)
    ensures m.Keys == before.Keys
  {
    map j | j in before :: if j < bound then Fixed(before[j], fix) else before[j]
  }

  /** Migrating row `id` extends the migrated prefix by one id. */
  lemma MigratedStep(before: map<int, Product>, fix: string -> string, id: int)
    ensures id in before && Fixed(before[id], fix) != before[id] ==>
              Migrated(before, fix, id + 1) == Migrated(before, fix, id)[id := Fixed(before[id], fix)]
    ensures !(id in before && Fixed(before[id], fix) != before[id]) ==>
              Migrated(before, fix, id + 1) == Migrated(before, fix, id)
    ensures id in before ==> Migrated(before, fix, id)[id] == before[id]
  {
  }

  /** The ids in [from, bound) whose row the rewrite changes, ascending. */
  function ChangedIds(before: map<int, Product>, fix: string -> string, from: int, bound: int): (r: seq<int>)
    ensures forall id :: id in r <==> from <= id < bound && id in before && Fixed(before[id], fix) != before[id]
    ensures forall i, j :: 0 <= i < j < |r| ==> r[i] < r[j]
    ensures forall i :: 0 <= i < |r| ==> r[i] < bound
    decreases bound - from
  {
    if bound <= from then []
    else
      ChangedIds(before, fix, from, bound - 1)
        + (if bound - 1 in before && Fixed(before[bound - 1], fix) != before[bound - 1] then [bound - 1] else [])
  }

  /** The row after the migration: its URL rewritten by `fix`. */
  function Fixed(p: Product, fix: string -> string): Product {
    p.(imageUrl := fix(p.imageUrl))
  }

  /** One turn of the loop: product `id`'s URL rewritten, and the row written only when it changes. */
  method MigrateOne(db: Database, id: int, fix: string -> string) returns (changed: bool)
    modifies db`products
    ensures changed <==> id in old(db.products) && Fixed(old(db.products)[id], fix) != old(db.products)[id]
    ensures changed ==> db.products == old(db.products)[id := Fixed(old(db.products)[id], fix)]
    ensures !changed ==> db.products == old(db.products)
  {
    changed := false;
    if id in db.products {
      var p := db.products[id];
      var u := fix(p.imageUrl);
      if p.imageUrl != u {
        db.products := db.products[id := p.(imageUrl := u)];
        changed := true;
      }
    }
  }
}
