/** The full profile screen (components/ProfilePage.tsx): everything it
    derives from the creator it shows — the gallery, the price table, the
    WhatsApp link and the bio text. */
module ProfilePage {
  import opened Common
  import opened Text
  import opened Types
  import Card
  import CreatorService

  /** The text shown when a creator has neither description nor bio. */
  const NoDescription: string := "Nenhuma descrição disponível."

  const WhatsAppPrefix: string := "https://wa.me/"

  // ----- prices -----

  /** `creator.baseRate || 0` */
  function PageBaseRate(c: Creator): (b: int)
    ensures c.baseRate.Some? ==> b == c.baseRate.value
    ensures c.baseRate.None? ==> b == 0
  {
    IntOr(c.baseRate, 0)
  }

  /** `Math.round(t / 10)`: the nearest integer, halves rounded up. */
  function RoundTenths(t: int): (r: int)
    ensures 10 * r - 5 <= t < 10 * r + 5
  {
    (t + 5) / 10
  }

  /** One line of the price table. */
  datatype Price = Price(duration: string, value: int)

  /** `priceList`: the base rate for one hour and rounded multiples of it
      (1.8, 4, 8 and 14) for the longer sessions. */
  function PriceList(b: int): (prices: seq<Price>)
    ensures |prices| == 5
    ensures prices[0] == Price("1 Hora", b)
  {
    [ Price("1 Hora", b),
      Price("2 Horas", RoundTenths(18 * b)),
      Price("5 Horas", RoundTenths(40 * b)),
      Price("12 Horas (Pernoite)", RoundTenths(80 * b)),
      Price("24 Horas", RoundTenths(140 * b)) ]
  }

  /** The values of the table for an integral base rate: the two-hour price
      is 1.8 times the rate rounded, the others are exact multiples. */
  lemma PriceListValues(b: int)
    ensures var p := PriceList(b);
      && p[1].value == (18 * b + 5) / 10
      && p[2].value == 4 * b && p[3].value == 8 * b && p[4].value == 14 * b
  {
    var p := PriceList(b);
    assert p[2].value == RoundTenths(40 * b);
    assert p[3].value == RoundTenths(80 * b);
    assert p[4].value == RoundTenths(140 * b);
  }

  /** For a non-negative rate a longer session never costs less. */
  lemma PricesNonDecreasing(b: int)
    requires b >= 0
    ensures forall i, j :: 0 <= i <= j < 5 ==> PriceList(b)[i].value <= PriceList(b)[j].value
  {
    PriceListValues(b);
    var p := PriceList(b);
    assert p[0].value <= p[1].value <= p[2].value <= p[3].value <= p[4].value;
  }

  // ----- WhatsApp -----

  /** `creator.whatsapp?.replace(/\D/g, '')` as the link prints it: a
      missing number prints as `undefined`. */
  function WhatsAppNumber(whatsapp: Option<string>): (n: string)
    ensures whatsapp.Some? ==> forall i :: 0 <= i < |n| ==> IsAsciiDigit(n[i])
    ensures whatsapp.None? ==> n == "undefined"
  {
    if whatsapp.Some? then DigitsOnly(whatsapp.value) else Interpolate(None)
  }

  /** The number in the link is exactly the digits of the stored number, in
      order, each as often as it occurs, and stripping it again changes
      nothing. */
  lemma WhatsAppNumberSpec(whatsapp: string)
    ensures var n := WhatsAppNumber(Some(whatsapp));
      && IsSubsequence(n, whatsapp)
      && (forall c :: multiset(n)[c] == if IsAsciiDigit(c) then multiset(whatsapp)[c] else 0)
      && DigitsOnly(n) == n
  {
    FilterIsSubsequence(IsAsciiDigit, whatsapp);
    FilterCounts(IsAsciiDigit, whatsapp);
    FilterIdempotent(IsAsciiDigit, whatsapp);
  }

  /** `whatsappLink` */
  function WhatsAppLink(c: Creator): (link: string)
    ensures WhatsAppPrefix + WhatsAppNumber(c.whatsapp) <= link
  {
    WhatsAppPrefix + WhatsAppNumber(c.whatsapp) + "?text=Olá " + c.name
      + ", vi seu perfil premium no Elysium e gostaria de agendar uma sessão."
  }

  /** The service never fills in `whatsapp`, so every loaded creator's link
      points at `wa.me/undefined`. */
  lemma LoadedLinkIsUndefined(clientPresent: bool, reply: CreatorService.QueryReply,
                              draws: seq<CreatorService.RatingDraw>, i: int)
    requires reply.QueryData? && reply.rows.Some? ==> |draws| == |reply.rows.value|
    requires 0 <= i < |CreatorService.GetAll(clientPresent, reply, draws)|
    ensures WhatsAppPrefix + "undefined" <= WhatsAppLink(CreatorService.GetAll(clientPresent, reply, draws)[i])
  {
    var c := CreatorService.GetAll(clientPresent, reply, draws)[i];
    assert c.whatsapp == None;
  }

  // ----- gallery -----

  /** `photos[k] || photos[0]` for the side thumbnails `k` = 1 and 2. */
  function Thumbnail(photos: seq<string>, k: int): (p: string)
    requires |photos| > 0 && 1 <= k <= 2
    ensures p in photos
    ensures k < |photos| && photos[k] != "" ==> p == photos[k]
    ensures k >= |photos| || photos[k] == "" ==> p == photos[0]
  {
    if k < |photos| && photos[k] != "" then photos[k] else photos[0]
  }

  /** The `+N` badge over the second thumbnail: shown only for more than
      three photos, counting every photo past the first thumbnail. */
  function OverflowBadge(photos: seq<string>): (badge: Option<int>)
    ensures badge.Some? <==> |photos| > 3
    ensures badge.Some? ==> badge.value == |photos| - 2 && badge.value >= 2
  {
    if |photos| > 3 then Some(|photos| - 2) else None
  }

  /** The gallery of a creator: the main photo, the two thumbnails and the
      badge, all taken from the display photos. */
  lemma GalleryFromDisplayPhotos(c: Creator)
    ensures var photos := Card.DisplayPhotos(c);
      && Thumbnail(photos, 1) in photos && Thumbnail(photos, 2) in photos
      && (|photos| == 1 ==> Thumbnail(photos, 1) == photos[0] && Thumbnail(photos, 2) == photos[0])
      && (c.photos.None? || c.photos.value == [] ==> OverflowBadge(photos).None? && photos[0] == c.avatar)
  {
  }

  // ----- text -----

  /** `creator.description || creator.bio || "Nenhuma descrição disponível."` */
  function Description(c: Creator): (text: string)
    ensures text != ""
    ensures Truthy(c.description) ==> text == c.description.value
    ensures !Truthy(c.description) && Truthy(c.bio) ==> text == c.bio.value
    ensures !Truthy(c.description) && !Truthy(c.bio) ==> text == NoDescription
  {
    JsOr(c.description, JsOr(c.bio, Some(NoDescription))).value
  }

  /** A loaded creator has no description, so its bio shows when it has one. */
  lemma LoadedCreatorShowsBio(clientPresent: bool, reply: CreatorService.QueryReply,
                              draws: seq<CreatorService.RatingDraw>, i: int)
    requires reply.QueryData? && reply.rows.Some? ==> |draws| == |reply.rows.value|
    requires 0 <= i < |CreatorService.GetAll(clientPresent, reply, draws)|
    ensures var c := CreatorService.GetAll(clientPresent, reply, draws)[i];
      Description(c) == if Truthy(c.bio) then c.bio.value else NoDescription
  {
    var c := CreatorService.GetAll(clientPresent, reply, draws)[i];
    assert c.description == None;
  }
}
