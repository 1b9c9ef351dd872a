/**
 The card catalog of the Nova card companion app and the QR recognizer that
 resolves a scanned payload to a catalog card, together with the colour
 palettes the collection screen uses for rarities and elements.
 */
module CardRecognition {

  datatype Option<T> = None | Some(value: T)

  /** The rarities a card can have. */
  datatype Rarity = Common | Rare | Epic | Legendary {
    /** The text the app stores and displays for this rarity. */
    function Name(): string {
      match this
      case Common => "Common"
      case Rare => "Rare"
      case Epic => "Epic"
      case Legendary => "Legendary"
    }
  }

  /** The elements a card can belong to. */
  datatype Element = Fire | Water | Earth | Air | Light | Dark {
    /** The text the app stores and displays for this element. */
    function Name(): string {
      match this
      case Fire => "Fire"
      case Water => "Water"
      case Earth => "Earth"
      case Air => "Air"
      case Light => "Light"
      case Dark => "Dark"
    }
  }

  /** A card definition of the catalog; `qrCode` is the optional QR payload printed on it. */
  datatype NovaCard = NovaCard(
    id: string,
    name: string,
    rarity: Rarity,
    element: Element,
    attack: int,
    defense: int,
    health: int,
    description: string,
    image: string,
    qrCode: Option<string>)

  /** The fixed catalog of the six Nova cards, in their declared order. */
  const NovaCards: seq<NovaCard> := [
    NovaCard("NOVA_001", "Nova The Starbot - Tooth Guardian", Legendary, Light, 95, 90, 100,
      "Pelindung gigi utama dengan kekuatan cahaya bintang yang melindungi dari semua ancaman",
      "nova_starbot.png", Some("NOVA_STARBOT_001_LEGENDARY_TOOTH_GUARDIAN")),
    NovaCard("NOVA_002", "Nova Fire Warrior", Epic, Fire, 85, 70, 80,
      "Pejuang api yang melawan bakteri jahat",
      "nova_fire_warrior.png", Some("NOVA_FIRE_002_EPIC")),
    NovaCard("NOVA_003", "Nova Aqua Healer", Rare, Water, 60, 80, 90,
      "Penyembuh dengan kekuatan air yang menyegarkan",
      "nova_aqua_healer.png", Some("NOVA_AQUA_003_RARE")),
    NovaCard("NOVA_004", "Nova Earth Guardian", Epic, Earth, 75, 95, 85,
      "Penjaga bumi yang melindungi enamel gigi",
      "nova_earth_guardian.png", Some("NOVA_EARTH_004_EPIC")),
    NovaCard("NOVA_005", "Nova Wind Scout", Common, Air, 70, 60, 70,
      "Pengintai angin yang cepat dan lincah",
      "nova_wind_scout.png", Some("NOVA_WIND_005_COMMON")),
    NovaCard("NOVA_006", "Nova Shadow Ninja", Rare, Dark, 80, 65, 75,
      "Ninja bayangan yang menyerang dalam kegelapan",
      "nova_shadow_ninja.png", Some("NOVA_SHADOW_006_RARE"))
  ]

  /** Catalog cards are told apart by id. */
  predicate DistinctIds(cards: seq<NovaCard>) {
    forall i, j :: 0 <= i < j < |cards| ==> cards[i].id != cards[j].id
  }

  /** No QR payload is printed on two catalog cards. */
  predicate DistinctQRCodes(cards: seq<NovaCard>) {
    forall i, j :: 0 <= i < j < |cards| && cards[i].qrCode.Some? ==> cards[i].qrCode != cards[j].qrCode
  }

  /** Stats are non-negative and every card carries a QR payload. */
  predicate SoundCard(c: NovaCard) {
    c.attack >= 0 && c.defense >= 0 && c.health >= 0 && c.qrCode.Some?
  }

  lemma CatalogIsSound()
    ensures |NovaCards| == 6
    ensures DistinctIds(NovaCards)
    ensures DistinctQRCodes(NovaCards)
    ensures forall c :: c in NovaCards ==> SoundCard(c)
  {
    CatalogIdsDistinct();
    CatalogPayloadsDistinct();
  }

  /** The ids differ in their last character. */
  lemma CatalogIdsDistinct()
    ensures DistinctIds(NovaCards)
  {
    var last := seq(|NovaCards|, i requires 0 <= i < |NovaCards| => NovaCards[i].id[7]);
    assert last == "123456";
  }

  /** The payloads differ in their length or in their sixth character. */
  lemma CatalogPayloadsDistinct()
    ensures DistinctQRCodes(NovaCards)
  {
    var lengths := seq(|NovaCards|, i requires 0 <= i < |NovaCards| => |NovaCards[i].qrCode.value|);
    var sixth := seq(|NovaCards|, i requires 0 <= i < |NovaCards| => NovaCards[i].qrCode.value[5]);
    assert lengths == [41, 18, 18, 19, 20, 20];
    assert sixth == "SFAEWS";
  }

  /**
   The position of the first card whose QR payload equals `qr` exactly;
   the search behind `find` in the recognizer.
   */
  function FirstQRMatch(cards: seq<NovaCard>, qr: string): (r: Option<nat>)
    ensures r.None? <==> forall j :: 0 <= j < |cards| ==> cards[j].qrCode != Some(qr)
    ensures r.Some? ==> r.value < |cards| && cards[r.value].qrCode == Some(qr)
    ensures r.Some? ==> forall j :: 0 <= j < r.value ==> cards[j].qrCode != Some(qr)
  {
    if |cards| == 0 then None
    else if cards[0].qrCode == Some(qr) then Some(0)
    else
      match FirstQRMatch(cards[1..], qr)
      case None => None
      case Some(i) => Some(i + 1)
  }

  /** The catalog card whose QR payload is exactly `qr`, if there is one. */
  function FindCardByQRCode(qr: string): (r: Option<NovaCard>)
    ensures r.Some? ==> r.value in NovaCards && r.value.qrCode == Some(qr)
    ensures r.None? <==> forall c :: c in NovaCards ==> c.qrCode != Some(qr)
  {
    match FirstQRMatch(NovaCards, qr)
    case None => None
    case Some(i) => Some(NovaCards[i])
  }

  /** The outcome of a QR scan; `error` is present only on failure. */
  datatype QRRecognition = QRRecognition(
    success: bool,
    card: Option<NovaCard>,
    scanMethod: string,
    error: Option<string>)

  const QRMethod := "qr"
  const UnrecognizedQRMessage := "QR Code tidak dikenali sebagai kartu Nova yang valid."

  /** Recognizes a scanned QR payload against the catalog. */
  function RecognizeQRCode(qrData: string): (r: QRRecognition)
    ensures r.success <==> r.card.Some?
    ensures r.card == FindCardByQRCode(qrData)
    ensures r.scanMethod == QRMethod
    ensures r.success ==> r.error.None?
    ensures !r.success ==> r.error.Some? && |r.error.value| > 0
  {
    match FindCardByQRCode(qrData)
    case Some(card) => QRRecognition(true, Some(card), QRMethod, None)
    case None => QRRecognition(false, None, QRMethod, Some(UnrecognizedQRMessage))
  }

  /** A scan succeeds exactly when the payload is printed on some catalog card. */
  lemma RecognizeSucceedsIffCatalogPayload(qrData: string)
    ensures RecognizeQRCode(qrData).success <==>
            exists i :: 0 <= i < |NovaCards| && NovaCards[i].qrCode == Some(qrData)
  {
    var r := FindCardByQRCode(qrData);
    if r.Some? {
      var i :| 0 <= i < |NovaCards| && NovaCards[i] == r.value;
      assert NovaCards[i].qrCode == Some(qrData);
    } else {
      forall i | 0 <= i < |NovaCards| ensures NovaCards[i].qrCode != Some(qrData) {
        assert NovaCards[i] in NovaCards;
      }
    }
  }

  /** Scanning the payload printed on a catalog card yields exactly that card. */
  lemma RecognizeCatalogCard(i: nat)
    requires i < |NovaCards|
    ensures NovaCards[i].qrCode.Some?
    ensures RecognizeQRCode(NovaCards[i].qrCode.value).success
    ensures RecognizeQRCode(NovaCards[i].qrCode.value).card == Some(NovaCards[i])
  {
    CatalogIsSound();
    assert SoundCard(NovaCards[i]);
    var qr := NovaCards[i].qrCode.value;
    var k := FirstQRMatch(NovaCards, qr);
    assert k.Some? && NovaCards[k.value].qrCode == NovaCards[i].qrCode;
    assert k.value == i;
  }

  /** Every id has eight characters and every QR payload at least eighteen. */
  lemma CatalogLengths()
    ensures forall j :: 0 <= j < |NovaCards| ==>
              |NovaCards[j].id| == 8 && NovaCards[j].qrCode.Some? && |NovaCards[j].qrCode.value| >= 18
  {
  }

  lemma RecognizeAquaHealer()
    ensures RecognizeQRCode("NOVA_AQUA_003_RARE").success
    ensures RecognizeQRCode("NOVA_AQUA_003_RARE").card.value.id == "NOVA_003"
    ensures RecognizeQRCode("NOVA_AQUA_003_RARE").card.value.name == "Nova Aqua Healer"
  {
    RecognizeCatalogCard(2);
  }

  lemma RecognizeGarbageFails()
    ensures !RecognizeQRCode("GARBAGE").success
    ensures RecognizeQRCode("GARBAGE").error == Some(UnrecognizedQRMessage)
  {
    CatalogLengths();
  }

  /** A card's id is never mistaken for its QR payload. */
  lemma IdIsNotAPayload(i: nat)
    requires i < |NovaCards|
    ensures !RecognizeQRCode(NovaCards[i].id).success
  {
    CatalogLengths();
  }

  /** The grey used for Common, Dark and every unknown value. */
  const NeutralColor := "#8e8e93"

  /** The palette's colours other than the neutral grey are not grey, and the names are the strings it switches on. */
  lemma PaletteFacts()
    ensures Rare.Name() == "Rare" && Epic.Name() == "Epic" && Legendary.Name() == "Legendary"
    ensures Fire.Name() == "Fire" && Water.Name() == "Water" && Earth.Name() == "Earth"
    ensures Air.Name() == "Air" && Light.Name() == "Light"
    ensures forall color :: color in ["#007aff", "#af52de", "#ff9500", "#ff3b30", "#34c759", "#5ac8fa", "#ffcc02"]
              ==> color != NeutralColor
  {
    var colors := ["#007aff", "#af52de", "#ff9500", "#ff3b30", "#34c759", "#5ac8fa", "#ffcc02"];
    forall color | color in colors ensures color != NeutralColor {
      assert color[1] != NeutralColor[1];
    }
  }

  /** The display colour of a rarity name; unknown names fall back to the neutral grey. */
  function RarityColor(rarity: string): (color: string)
    ensures color == NeutralColor <==>
            rarity == Common.Name() || forall r: Rarity :: r.Name() != rarity
  {
    PaletteFacts();
    match rarity
    case "Common" => NeutralColor
    case "Rare" => "#007aff"
    case "Epic" => "#af52de"
    case "Legendary" => "#ff9500"
    case _ => NeutralColor
  }

  /** The display colour of an element name; unknown names fall back to the neutral grey. */
  function ElementColor(element: string): (color: string)
    ensures color == NeutralColor <==>
            element == Dark.Name() || forall e: Element :: e.Name() != element
  {
    PaletteFacts();
    match element
    case "Fire" => "#ff3b30"
    case "Water" => "#007aff"
    case "Earth" => "#34c759"
    case "Air" => "#5ac8fa"
    case "Light" => "#ffcc02"
    case "Dark" => NeutralColor
    case _ => NeutralColor
  }

  lemma RarityPalette()
    ensures RarityColor(Common.Name()) == "#8e8e93"
    ensures RarityColor(Rare.Name()) == "#007aff"
    ensures RarityColor(Epic.Name()) == "#af52de"
    ensures RarityColor(Legendary.Name()) == "#ff9500"
  {
  }

  lemma ElementPalette()
    ensures ElementColor(Fire.Name()) == "#ff3b30"
    ensures ElementColor(Water.Name()) == "#007aff"
    ensures ElementColor(Earth.Name()) == "#34c759"
    ensures ElementColor(Air.Name()) == "#5ac8fa"
    ensures ElementColor(Light.Name()) == "#ffcc02"
    ensures ElementColor(Dark.Name()) == "#8e8e93"
  {
  }

  /** Distinct rarities are drawn in distinct colours, and unknown names look like Common. */
  lemma RarityColorsTellRaritiesApart(r1: Rarity, r2: Rarity, other: string)
    requires forall r: Rarity :: r.Name() != other
    ensures RarityColor(r1.Name()) == RarityColor(r2.Name()) ==> r1 == r2
    ensures RarityColor(other) == RarityColor(Common.Name())
  {
  }

  /** Distinct elements are drawn in distinct colours, and unknown names look like Dark. */
  lemma ElementColorsTellElementsApart(e1: Element, e2: Element, other: string)
    requires forall e: Element :: e.Name() != other
    ensures ElementColor(e1.Name()) == ElementColor(e2.Name()) ==> e1 == e2
    ensures ElementColor(other) == ElementColor(Dark.Name())
  {
  }
}
