/**
 The collection store of the Nova card companion app: the persisted, ordered
 list of collected cards, one record per card id, with a scan counter per
 record and statistics derived from the list on every read.
 */
module Collection {
  import opened CardRecognition

  /** A collected card: the card's fields as first scanned, when, and how often. */
  datatype CollectedCard = CollectedCard(card: NovaCard, collectedAt: int, scanCount: int)

  /**
   What the storage key holds once read back: the list it decodes to, or text
   whose read throws (not JSON, not an array, or an array holding null).
   */
  datatype Blob = Records(cards: seq<CollectedCard>) | Unparseable

  /** The aggregate figures shown on the collection screen. */
  datatype Stats = Stats(
    totalCards: nat,
    totalScans: int,
    rarityCount: map<Rarity, nat>,
    elementCount: map<Element, nat>)

  predicate UniqueIds(cards: seq<CollectedCard>) {
    forall i, j :: 0 <= i < j < |cards| ==> cards[i].card.id != cards[j].card.id
  }

  predicate PositiveCounts(cards: seq<CollectedCard>) {
    forall i :: 0 <= i < |cards| ==> cards[i].scanCount >= 1
  }

  /** The invariant of a stored collection: one record per id, each scanned at least once. */
  predicate WellFormed(cards: seq<CollectedCard>) {
    UniqueIds(cards) && PositiveCounts(cards)
  }

  predicate HasId(cards: seq<CollectedCard>, id: string) {
    exists j :: 0 <= j < |cards| && cards[j].card.id == id
  }

  /** The collection a read of the storage slot yields; nothing stored or unparseable text give the empty list. */
  function Decode(stored: Option<Blob>): (cards: seq<CollectedCard>)
    ensures stored.None? || stored == Some(Unparseable) ==> cards == []
    ensures stored.Some? && stored.value.Records? ==> cards == stored.value.cards
    ensures cards == [] || stored == Some(Records(cards))
  {
    match stored
    case None => []
    case Some(Unparseable) => []
    case Some(Records(cards)) => cards
  }

  /** The position of the first record with the given id. */
  function IndexOfId(cards: seq<CollectedCard>, id: string): (r: Option<nat>)
    ensures r.None? <==> !HasId(cards, id)
    ensures r.Some? ==> r.value < |cards| && cards[r.value].card.id == id
    ensures r.Some? ==> forall j :: 0 <= j < r.value ==> cards[j].card.id != id
  {
    if |cards| == 0 then None
    else if cards[0].card.id == id then Some(0)
    else
      match IndexOfId(cards[1..], id)
      case None =>
        assert forall j :: 1 <= j < |cards| ==> cards[j] == cards[1..][j - 1];
        None
      case Some(i) => Some(i + 1)
  }

  /**
   The collection after one more scan of `card` at time `now`: the first record
   with its id counts one more scan, or a fresh record is appended.
   */
  function Upsert(cards: seq<CollectedCard>, card: NovaCard, now: int): (r: seq<CollectedCard>)
    ensures |r| == if HasId(cards, card.id) then |cards| else |cards| + 1
    ensures HasId(r, card.id)
    ensures forall j :: 0 <= j < |cards| ==> r[j].card == cards[j].card && r[j].collectedAt == cards[j].collectedAt
    ensures forall j :: 0 <= j < |cards| && cards[j].card.id != card.id ==> r[j] == cards[j]
    ensures !HasId(cards, card.id) ==> r[|cards|] == CollectedCard(card, now, 1)
  {
    match IndexOfId(cards, card.id)
    case Some(i) =>
      var r := cards[i := cards[i].(scanCount := cards[i].scanCount + 1)];
      assert r[i].card.id == card.id;
      r
    case None =>
      var r := cards + [CollectedCard(card, now, 1)];
      assert r[|cards|].card.id == card.id;
      r
  }

  /** Every scan adds exactly one to the total scan count. */
  lemma UpsertAddsOneScan(cards: seq<CollectedCard>, card: NovaCard, now: int)
    ensures SumScans(Upsert(cards, card, now)) == SumScans(cards) + 1
  {
    match IndexOfId(cards, card.id)
    case Some(i) => SumScansBump(cards, i);
    case None => SumScansAppend(cards, CollectedCard(card, now, 1));
  }

  /** Counting one more scan on record i adds one to the total. */
  lemma {:induction false} SumScansBump(cards: seq<CollectedCard>, i: nat)
    requires i < |cards|
    ensures SumScans(cards[i := cards[i].(scanCount := cards[i].scanCount + 1)]) == SumScans(cards) + 1
  {
    var n := |cards| - 1;
    var r := cards[i := cards[i].(scanCount := cards[i].scanCount + 1)];
    if i < n {
      assert r[..n] == cards[..n][i := cards[i].(scanCount := cards[i].scanCount + 1)];
      SumScansBump(cards[..n], i);
    } else {
      assert r[..n] == cards[..n];
    }
  }

  /** Appending a record adds its scans to the total. */
  lemma SumScansAppend(cards: seq<CollectedCard>, c: CollectedCard)
    ensures SumScans(cards + [c]) == SumScans(cards) + c.scanCount
  {
    assert (cards + [c])[..|cards|] == cards;
  }

  /** The collection with every record of the given id dropped, the others kept in order. */
  function Without(cards: seq<CollectedCard>, id: string): (r: seq<CollectedCard>)
    ensures |r| <= |cards|
    ensures !HasId(r, id)
  {
    if |cards| == 0 then []
    else
      var rest := Without(cards[1..], id);
      if cards[0].card.id == id then rest else [cards[0]] + rest
  }

  /** The filtered list holds exactly the records with another id. */
  lemma {:induction false} WithoutMembers(cards: seq<CollectedCard>, id: string)
    ensures forall c :: c in Without(cards, id) <==> c in cards && c.card.id != id
  {
    if |cards| > 0 {
      WithoutMembers(cards[1..], id);
      assert forall c :: c in cards <==> c == cards[0] || c in cards[1..];
    }
  }

  /** The sum of all scan counts, accumulated from the front. */
  function SumScans(cards: seq<CollectedCard>): int {
    if |cards| == 0 then 0 else SumScans(cards[..|cards| - 1]) + cards[|cards| - 1].scanCount
  }

  function CountRarity(cards: seq<CollectedCard>, r: Rarity): nat {
    if |cards| == 0 then 0
    else CountRarity(cards[..|cards| - 1], r) + (if cards[|cards| - 1].card.rarity == r then 1 else 0)
  }

  function CountElement(cards: seq<CollectedCard>, e: Element): nat {
    if |cards| == 0 then 0
    else CountElement(cards[..|cards| - 1], e) + (if cards[|cards| - 1].card.element == e then 1 else 0)
  }

  /** A count of a dictionary, reading a missing key as zero. */
  function CountOf<K>(m: map<K, nat>, k: K): nat {
    if k in m then m[k] else 0
  }

  /** The set of ids present in a collection. */
  function Ids(cards: seq<CollectedCard>): set<string> {
    set i | 0 <= i < |cards| :: cards[i].card.id
  }

  /** A scan of a card already collected bumps only that record's counter. */
  lemma UpsertPresent(cards: seq<CollectedCard>, card: NovaCard, now: int, i: nat)
    requires UniqueIds(cards)
    requires i < |cards| && cards[i].card.id == card.id
    ensures |Upsert(cards, card, now)| == |cards|
    ensures Upsert(cards, card, now)[i].scanCount == cards[i].scanCount + 1
    ensures Upsert(cards, card, now)[i].card == cards[i].card
    ensures Upsert(cards, card, now)[i].collectedAt == cards[i].collectedAt
    ensures forall j :: 0 <= j < |cards| && j != i ==> Upsert(cards, card, now)[j] == cards[j]
  {
    var k := IndexOfId(cards, card.id);
    assert k.Some?;
    assert k.value == i;
  }

  /** A scan of a card not yet collected appends a fresh record stamped `now`. */
  lemma UpsertAbsent(cards: seq<CollectedCard>, card: NovaCard, now: int)
    requires !HasId(cards, card.id)
    ensures |Upsert(cards, card, now)| == |cards| + 1
    ensures Upsert(cards, card, now)[..|cards|] == cards
    ensures Upsert(cards, card, now)[|cards|] == CollectedCard(card, now, 1)
  {
  }

  /** Scanning keeps ids unique and counts positive, and leaves the card collected. */
  lemma UpsertKeepsWellFormed(cards: seq<CollectedCard>, card: NovaCard, now: int)
    requires WellFormed(cards)
    ensures WellFormed(Upsert(cards, card, now))
    ensures HasId(Upsert(cards, card, now), card.id)
  {
    var r := Upsert(cards, card, now);
    match IndexOfId(cards, card.id)
    case Some(i) =>
      UpsertPresent(cards, card, now, i);
      assert r[i].card.id == card.id;
    case None =>
      UpsertAbsent(cards, card, now);
      assert r[|cards|].card.id == card.id;
  }

  /** Two scans of a card not yet collected leave one record for it, counted twice and stamped by the first. */
  lemma UpsertTwice(cards: seq<CollectedCard>, card: NovaCard, first: int, second: int)
    requires WellFormed(cards) && !HasId(cards, card.id)
    ensures var r := Upsert(Upsert(cards, card, first), card, second);
      && |r| == |cards| + 1
      && r[..|cards|] == cards
      && r[|cards|] == CollectedCard(card, first, 2)
      && forall j :: 0 <= j < |r| && r[j].card.id == card.id ==> j == |cards|
  {
    var once := Upsert(cards, card, first);
    UpsertAbsent(cards, card, first);
    UpsertKeepsWellFormed(cards, card, first);
    UpsertPresent(once, card, second, |cards|);
    var r := Upsert(once, card, second);
    assert r[..|cards|] == once[..|cards|];
  }

  /** Removing preserves the invariant. */
  lemma {:induction false} WithoutKeepsWellFormed(cards: seq<CollectedCard>, id: string)
    requires WellFormed(cards)
    ensures WellFormed(Without(cards, id))
  {
    if |cards| > 0 {
      WithoutKeepsWellFormed(cards[1..], id);
      WithoutMembers(cards[1..], id);
      var rest := Without(cards[1..], id);
      if cards[0].card.id != id {
        var r := [cards[0]] + rest;
        forall j | 0 < j < |r| ensures r[0].card.id != r[j].card.id {
          assert r[j] in rest;
          var k :| 0 <= k < |cards[1..]| && cards[1..][k] == r[j];
          assert cards[k + 1] == r[j];
        }
      }
    }
  }

  /** Removing an id nobody holds changes nothing. */
  lemma {:induction false} WithoutAbsent(cards: seq<CollectedCard>, id: string)
    requires !HasId(cards, id)
    ensures Without(cards, id) == cards
  {
    if |cards| > 0 {
      assert cards[0].card.id != id;
      WithoutAbsent(cards[1..], id);
      assert [cards[0]] + cards[1..] == cards;
    }
  }

  /** Removing distributes over concatenation, so the kept records stay in their order. */
  lemma {:induction false} WithoutConcat(a: seq<CollectedCard>, b: seq<CollectedCard>, id: string)
    ensures Without(a + b, id) == Without(a, id) + Without(b, id)
  {
    if |a| == 0 {
      assert a + b == b;
    } else {
      assert (a + b)[0] == a[0];
      assert (a + b)[1..] == a[1..] + b;
      WithoutConcat(a[1..], b, id);
    }
  }

  /** With unique ids, the records before and after a record do not hold its id. */
  lemma OnlyOneHolder(cards: seq<CollectedCard>, i: nat)
    requires UniqueIds(cards) && i < |cards|
    ensures !HasId(cards[..i], cards[i].card.id)
    ensures !HasId(cards[i + 1..], cards[i].card.id)
  {
    var front, back := cards[..i], cards[i + 1..];
    forall j | 0 <= j < |front| ensures front[j].card.id != cards[i].card.id {
      assert front[j] == cards[j];
    }
    forall j | 0 <= j < |back| ensures back[j].card.id != cards[i].card.id {
      assert back[j] == cards[i + 1 + j];
    }
  }

  /** Dropping the first record keeps ids distinct. */
  lemma TailUnique(cards: seq<CollectedCard>)
    requires UniqueIds(cards) && |cards| > 0
    ensures UniqueIds(cards[1..])
  {
    var tail := cards[1..];
    forall j, k | 0 <= j < k < |tail| ensures tail[j].card.id != tail[k].card.id {
      assert tail[j] == cards[j + 1] && tail[k] == cards[k + 1];
    }
  }

  /** In a well-formed collection, removing a present id drops exactly its one record. */
  lemma {:induction false} WithoutPresent(cards: seq<CollectedCard>, i: nat)
    requires UniqueIds(cards) && i < |cards|
    ensures Without(cards, cards[i].card.id) == cards[..i] + cards[i + 1..]
  {
    var id := cards[i].card.id;
    var tail := cards[1..];
    TailUnique(cards);
    if i == 0 {
      OnlyOneHolder(cards, 0);
      WithoutAbsent(tail, id);
      assert Without(cards, id) == Without(tail, id);
    } else {
      assert cards[0].card.id != id;
      assert Without(cards, id) == [cards[0]] + Without(tail, id);
      assert tail[i - 1] == cards[i];
      WithoutPresent(tail, i - 1);
      assert tail[..i - 1] == cards[1..i] && tail[i..] == cards[i + 1..];
      assert cards[..i] == [cards[0]] + cards[1..i];
    }
  }

  /** In a well-formed collection there are as many records as distinct ids. */
  lemma {:induction false} DistinctIdCount(cards: seq<CollectedCard>)
    requires UniqueIds(cards)
    ensures |Ids(cards)| == |cards|
  {
    if |cards| > 0 {
      var n := |cards| - 1;
      var front := cards[..n];
      assert forall i :: 0 <= i < n ==> front[i] == cards[i];
      DistinctIdCount(front);
      IdsOfSnoc(cards);
      assert cards[n].card.id !in Ids(front);
    }
  }

  /** The ids of a non-empty collection are those of all but its last record, plus the last one's. */
  lemma IdsOfSnoc(cards: seq<CollectedCard>)
    requires |cards| > 0
    ensures Ids(cards) == Ids(cards[..|cards| - 1]) + {cards[|cards| - 1].card.id}
  {
    var front := cards[..|cards| - 1];
    assert forall i :: 0 <= i < |front| ==> front[i] == cards[i];
  }


  /** Every record counts at least one scan, so there are at least as many scans as cards. */
  lemma {:induction false} ScansCoverCards(cards: seq<CollectedCard>)
    requires PositiveCounts(cards)
    ensures SumScans(cards) >= |cards|
  {
    if |cards| > 0 {
      var front := cards[..|cards| - 1];
      assert PositiveCounts(front) by {
        forall j | 0 <= j < |front| ensures front[j].scanCount >= 1 {
          assert front[j] == cards[j];
        }
      }
      ScansCoverCards(front);
    }
  }

  /** The per-rarity counts add up to the number of records. */
  lemma {:induction false} RarityCountsCoverCards(cards: seq<CollectedCard>)
    ensures CountRarity(cards, Common) + CountRarity(cards, Rare)
            + CountRarity(cards, Epic) + CountRarity(cards, Legendary) == |cards|
  {
    if |cards| > 0 {
      RarityCountsCoverCards(cards[..|cards| - 1]);
    }
  }

  /** The per-element counts add up to the number of records. */
  lemma {:induction false} ElementCountsCoverCards(cards: seq<CollectedCard>)
    ensures CountElement(cards, Fire) + CountElement(cards, Water) + CountElement(cards, Earth)
            + CountElement(cards, Air) + CountElement(cards, Light) + CountElement(cards, Dark) == |cards|
  {
    if |cards| > 0 {
      ElementCountsCoverCards(cards[..|cards| - 1]);
    }
  }

  /** Two scans of one card and one of another, from an empty collection, leave two records and three scans. */
  lemma TwoCardsThreeScans(a: NovaCard, b: NovaCard, t1: int, t2: int, t3: int)
    requires a.id != b.id
    ensures var final := Upsert(Upsert(Upsert([], a, t1), a, t2), b, t3);
            |final| == 2 && SumScans(final) == 3
  {
    UpsertTwice([], a, t1, t2);
    assert !HasId([CollectedCard(a, t1, 2)], b.id);
    UpsertAddsOneScan([], a, t1);
    UpsertAddsOneScan(Upsert([], a, t1), a, t2);
    UpsertAddsOneScan(Upsert(Upsert([], a, t1), a, t2), b, t3);
  }

  /**
   The collection store. `stored` stands for the value under the storage key
   "nova_card_collection":
   None when nothing is stored, otherwise what reading it back yields.
   */
  class CollectionManager {
    var stored: Option<Blob>

    /** Only this store writes the key, so whatever list it holds keeps the invariant. */
    ghost predicate Valid()
      reads this
    {
      stored.Some? && stored.value.Records? ==> WellFormed(stored.value.cards)
    }

    /** The collection the next read returns. */
    function Collection(): seq<CollectedCard>
      reads this
    {
      Decode(stored)
    }

    /** A store over whatever the device already holds under the key. */
    constructor (initial: Option<Blob>)
      requires initial.Some? && initial.value.Records? ==> WellFormed(initial.value.cards)
      ensures stored == initial && Valid()
    {
      stored := initial;
    }

    /** Reads the collection; an empty slot or unparseable text read as the empty list. */
    method GetCollection() returns (cards: seq<CollectedCard>)
      requires Valid()
      ensures cards == Collection()
      ensures WellFormed(cards)
      ensures stored.None? || stored == Some(Unparseable) ==> cards == []
    {
      match stored
      case None =>
        cards := [];
      case Some(Unparseable) =>
        cards := [];
      case Some(Records(list)) =>
        cards := list;
    }

    /** Writes the whole collection back under the key. */
    method SaveCollection(cards: seq<CollectedCard>)
      requires WellFormed(cards)
      modifies this
      ensures Valid()
      ensures stored == Some(Records(cards))
      ensures Collection() == cards
    {
      stored := Some(Records(cards));
    }

    /**
     Records one scan of `card` at time `now`: bumps the counter of its record
     if it is collected, appends a new record otherwise, saves, and returns the
     record as saved.
     */
    method AddCard(card: NovaCard, now: int) returns (collected: CollectedCard)
      requires Valid()
      modifies this
      ensures Valid()
      ensures stored == Some(Records(Upsert(old(Collection()), card, now)))
      ensures collected.card.id == card.id && collected in Collection()
      ensures !HasId(old(Collection()), card.id) ==>
                collected == CollectedCard(card, now, 1) && Collection() == old(Collection()) + [collected]
      ensures HasId(old(Collection()), card.id) ==>
                exists i :: 0 <= i < |old(Collection())| && old(Collection())[i].card.id == card.id
                  && collected == old(Collection())[i].(scanCount := old(Collection())[i].scanCount + 1)
                  && Collection() == old(Collection())[i := collected]
    {
      var cards := GetCollection();
      var i := 0;
      while i < |cards| && cards[i].card.id != card.id
        invariant 0 <= i <= |cards|
        invariant forall j :: 0 <= j < i ==> cards[j].card.id != card.id
      {
        i := i + 1;
      }
      ghost var before := cards;
      UpsertKeepsWellFormed(cards, card, now);
      if i < |cards| {
        assert IndexOfId(cards, card.id) == Some(i);
        collected := cards[i].(scanCount := cards[i].scanCount + 1);
        cards := cards[i := collected];
      } else {
        assert IndexOfId(cards, card.id) == None;
        collected := CollectedCard(card, now, 1);
        cards := cards + [collected];
      }
      assert cards == Upsert(before, card, now);
      SaveCollection(cards);
    }

    /** Whether a record with the given id is collected. */
    method HasCard(cardId: string) returns (found: bool)
      requires Valid()
      ensures found <==> HasId(Collection(), cardId)
    {
      var cards := GetCollection();
      found := false;
      var k := 0;
      while k < |cards| && !found
        invariant 0 <= k <= |cards|
        invariant found <==> exists j :: 0 <= j < k && cards[j].card.id == cardId
      {
        found := cards[k].card.id == cardId;
        k := k + 1;
      }
    }

    /** The statistics of the collection, computed afresh from what is stored. */
    method GetStats() returns (stats: Stats)
      requires Valid()
      ensures stats.totalCards == |Collection()| == |Ids(Collection())|
      ensures stats.totalScans == SumScans(Collection())
      ensures stats.totalScans >= stats.totalCards
      ensures forall r: Rarity :: CountOf(stats.rarityCount, r) == CountRarity(Collection(), r)
      ensures forall r :: r in stats.rarityCount ==> stats.rarityCount[r] > 0
      ensures forall e: Element :: CountOf(stats.elementCount, e) == CountElement(Collection(), e)
      ensures forall e :: e in stats.elementCount ==> stats.elementCount[e] > 0
      ensures CountOf(stats.rarityCount, Common) + CountOf(stats.rarityCount, Rare)
              + CountOf(stats.rarityCount, Epic) + CountOf(stats.rarityCount, Legendary)
              == stats.totalCards
      ensures CountOf(stats.elementCount, Fire) + CountOf(stats.elementCount, Water)
              + CountOf(stats.elementCount, Earth) + CountOf(stats.elementCount, Air)
              + CountOf(stats.elementCount, Light) + CountOf(stats.elementCount, Dark)
              == stats.totalCards
    {
      var cards := GetCollection();
      var totalScans := 0;
      for k := 0 to |cards|
        invariant totalScans == SumScans(cards[..k])
      {
        assert cards[..k + 1][..k] == cards[..k];
        totalScans := totalScans + cards[k].scanCount;
      }
      assert cards[..|cards|] == cards;
      var rarityCount: map<Rarity, nat> := map[];
      var elementCount: map<Element, nat> := map[];
      for k := 0 to |cards|
        invariant forall r: Rarity :: CountOf(rarityCount, r) == CountRarity(cards[..k], r)
        invariant forall r :: r in rarityCount ==> rarityCount[r] > 0
        invariant forall e: Element :: CountOf(elementCount, e) == CountElement(cards[..k], e)
        invariant forall e :: e in elementCount ==> elementCount[e] > 0
      {
        assert cards[..k + 1][..k] == cards[..k];
        var c := cards[k].card;
        rarityCount := rarityCount[c.rarity := CountOf(rarityCount, c.rarity) + 1];
        elementCount := elementCount[c.element := CountOf(elementCount, c.element) + 1];
      }
      ScansCoverCards(cards);
      DistinctIdCount(cards);
      RarityCountsCoverCards(cards);
      ElementCountsCoverCards(cards);
      stats := Stats(|cards|, totalScans, rarityCount, elementCount);
    }

    /** Drops the record with the given id, if any, and saves the rest in order. */
    method RemoveCard(cardId: string)
      requires Valid()
      modifies this
      ensures Valid()
      ensures stored == Some(Records(Without(old(Collection()), cardId)))
      ensures !HasId(Collection(), cardId)
      ensures !HasId(old(Collection()), cardId) ==> Collection() == old(Collection())
      ensures HasId(old(Collection()), cardId) ==> |Collection()| == |old(Collection())| - 1
    {
      var cards := GetCollection();
      var kept: seq<CollectedCard> := [];
      for k := 0 to |cards|
        invariant kept == Without(cards[..k], cardId)
      {
        assert cards[..k + 1] == cards[..k] + [cards[k]];
        WithoutConcat(cards[..k], [cards[k]], cardId);
        if cards[k].card.id != cardId {
          kept := kept + [cards[k]];
        }
      }
      assert cards[..|cards|] == cards;
      WithoutKeepsWellFormed(cards, cardId);
      match IndexOfId(cards, cardId) {
        case Some(i) => WithoutPresent(cards, i);
        case None => WithoutAbsent(cards, cardId);
      }
      SaveCollection(kept);
    }

    /** Deletes the stored collection altogether. */
    method ClearCollection()
      modifies this
      ensures Valid()
      ensures stored.None? && Collection() == []
    {
      stored := None;
    }
  }

  /**
   A fresh store, the Aqua Healer scanned twice and the Starbot once: two
   records, three scans.
   */
  method ScanScenario(t1: int, t2: int, t3: int) returns (stats: Stats)
    ensures stats.totalCards == 2 && stats.totalScans == 3
  {
    var store := new CollectionManager(None);
    var aqua := NovaCards[2];
    var starbot := NovaCards[0];
    assert aqua.id != starbot.id by {
      assert aqua.id[7] != starbot.id[7];
    }
    var first := store.AddCard(aqua, t1);
    var again := store.AddCard(aqua, t2);
    var other := store.AddCard(starbot, t3);
    assert store.Collection() == Upsert(Upsert(Upsert([], aqua, t1), aqua, t2), starbot, t3);
    TwoCardsThreeScans(aqua, starbot, t1, t2, t3);
    stats := store.GetStats();
  }
}
