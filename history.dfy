/** The history page of src/pages/History.tsx: the per-type and per-status lookups,
    the empty-list default and what each entry's card shows. */
module History {
  import opened Common
  import opened Api
  import Text

  const HistoryPageLimit := 50

  /** The four item types the server knows. */
  const KnownTypes: seq<string> := ["article", "image", "background-removal", "resume-analysis"]

  const UnknownTypeColor := "text-gray-500 bg-gray-500/10"

  /** One entry of the history list. */
  datatype HistoryItem = HistoryItem(
    id: string,
    itemType: string,
    title: string,
    description: Option<string>,
    createdAt: string,
    status: string)

  /** `getTypeIcon`. */
  function TypeIcon(t: string): (r: Icon)
    ensures r == HistoryIcon <==> t !in KnownTypes
  {
    if t == "article" then FileTextIcon
    else if t == "image" then ImageIcon
    else if t == "background-removal" then ScissorsIcon
    else if t == "resume-analysis" then FileUserIcon
    else HistoryIcon
  }

  /** `getTypeColor`. */
  function TypeColor(t: string): (r: string)
    ensures r == UnknownTypeColor <==> t !in KnownTypes
  {
    if t == "article" then "text-blue-500 bg-blue-500/10"
    else if t == "image" then "text-purple-500 bg-purple-500/10"
    else if t == "background-removal" then "text-green-500 bg-green-500/10"
    else if t == "resume-analysis" then "text-orange-500 bg-orange-500/10"
    else UnknownTypeColor
  }

  /** `getTypeLabel`. */
  function TypeLabel(t: string): (r: string)
    ensures r == "Unknown" <==> t !in KnownTypes
  {
    if t == "article" then "Article Generation"
    else if t == "image" then "Image Generation"
    else if t == "background-removal" then "Background Removal"
    else if t == "resume-analysis" then "Resume Analysis"
    else "Unknown"
  }

  /** The three lookups agree on which types are known, and they tell the known
      types apart: no two known types share a label, an icon or a colour. */
  lemma TypeLookupsAgree(t: string, u: string)
    ensures TypeIcon(t) == HistoryIcon <==> TypeLabel(t) == "Unknown"
    ensures TypeColor(t) == UnknownTypeColor <==> TypeLabel(t) == "Unknown"
    ensures t in KnownTypes && u in KnownTypes && t != u ==>
              TypeLabel(t) != TypeLabel(u) && TypeIcon(t) != TypeIcon(u) && TypeColor(t) != TypeColor(u)
  {
  }

  /** A status badge: a coloured one for the three known statuses, the secondary
      variant otherwise. */
  datatype Badge = Colored(className: string, text: string) | Secondary(text: string)

  /** `getStatusBadge`. */
  function StatusBadge(status: string): (r: Badge)
    ensures r.Secondary? <==> status !in {"completed", "processing", "failed"}
    ensures r.text == "Completed" <==> status == "completed"
    ensures r.text == "Processing" <==> status == "processing"
    ensures r.text == "Failed" <==> status == "failed"
    ensures r.text == "Unknown" <==> r.Secondary?
  {
    if status == "completed" then Colored("bg-green-500/10 text-green-500", "Completed")
    else if status == "processing" then Colored("bg-yellow-500/10 text-yellow-500", "Processing")
    else if status == "failed" then Colored("bg-red-500/10 text-red-500", "Failed")
    else Secondary("Unknown")
  }

  /** The Download button is offered exactly on the cards whose badge reads
      "Completed". */
  function DownloadOffered(item: HistoryItem): (r: bool)
    ensures r <==> StatusBadge(item.status).text == "Completed"
  {
    item.status == "completed"
  }

  /** `historyItems || []`: a missing list is an empty one. */
  function Items(data: Option<seq<HistoryItem>>): (r: seq<HistoryItem>)
    ensures data.None? ==> r == []
    ensures data.Some? ==> r == data.value
  {
    match data
    case None => []
    case Some(items) => items
  }

  // ---------------------------------------------------------------------------
  // The description line
  // ---------------------------------------------------------------------------

  /** The separator as the source file spells it: the three characters a UTF-8
      bullet becomes when its bytes are read as Windows-1252. */
  const MisreadSeparator := " \U{00E2}\U{20AC}\U{00A2} "
  /** The separator evidently meant: a bullet between spaces. */
  const Separator := " \U{2022} "

  /** The description line as written: the type label, then the separator and the
      description when there is a non-empty one. */
  function DescriptionLineAsWritten(item: HistoryItem): (r: string)
    ensures Truthy(item.description) ==> r == TypeLabel(item.itemType) + MisreadSeparator + item.description.value
    ensures !Truthy(item.description) ==> r == TypeLabel(item.itemType)
  {
    if Truthy(item.description) then TypeLabel(item.itemType) + MisreadSeparator + item.description.value
    else TypeLabel(item.itemType)
  }

  /** The description line with the bullet separator. */
  function DescriptionLine(item: HistoryItem): (r: string)
    ensures Truthy(item.description) ==> r == TypeLabel(item.itemType) + Separator + item.description.value
    ensures !Truthy(item.description) ==> r == TypeLabel(item.itemType)
  {
    if Truthy(item.description) then TypeLabel(item.itemType) + Separator + item.description.value
    else TypeLabel(item.itemType)
  }

  /** The UTF-8 encoding of a character of the Basic Multilingual Plane beyond
      U+07FF: three bytes. */
  function Utf8ThreeBytes(c: char): (r: seq<int>)
    requires 0x800 <= c as int <= 0xFFFF
    ensures |r| == 3
    ensures 0xE0 <= r[0] < 0xF0 && 0x80 <= r[1] < 0xC0 && 0x80 <= r[2] < 0xC0
    ensures (r[0] - 0xE0) * 0x1000 + (r[1] - 0x80) * 0x40 + (r[2] - 0x80) == c as int
  {
    var n := c as int;
    var hi, mid, lo := n / 0x1000, (n / 0x40) % 0x40, n % 0x40;
    assert n / 0x40 == hi * 0x40 + mid;
    [0xE0 + hi, 0x80 + mid, 0x80 + lo]
  }

  /** Windows-1252 for the bytes that occur here: 0x80 is the euro sign, and the
      bytes from 0xA0 up name the Latin-1 character of the same number. */
  function Cp1252(b: int): Option<char>
  {
    if b == 0x80 then Some('\U{20AC}')
    else if 0xA0 <= b < 0x100 then Some(b as char)
    else None
  }

  /** The misread separator is exactly the bullet's UTF-8 bytes read as
      Windows-1252. */
  lemma SeparatorIsMisreadBullet()
    ensures var bytes := Utf8ThreeBytes('\U{2022}');
            Cp1252(bytes[0]) == Some(MisreadSeparator[1])
            && Cp1252(bytes[1]) == Some(MisreadSeparator[2])
            && Cp1252(bytes[2]) == Some(MisreadSeparator[3])
  {
  }

  /** A described item shows three stray characters and no bullet in the line as
      written, and the bullet in the corrected line. */
  lemma DescriptionSeparatorDiffers(item: HistoryItem)
    requires Truthy(item.description)
    ensures var typeName := TypeLabel(item.itemType);
            && DescriptionLineAsWritten(item)[|typeName| + 1] == '\U{00E2}'
            && DescriptionLine(item)[|typeName| + 1] == '\U{2022}'
            && DescriptionLineAsWritten(item) != DescriptionLine(item)
  {
    var typeName := TypeLabel(item.itemType);
    assert DescriptionLineAsWritten(item)[|typeName| + 1] == MisreadSeparator[1];
    assert DescriptionLine(item)[|typeName| + 1] == Separator[1];
  }

  // ---------------------------------------------------------------------------
  // The page
  // ---------------------------------------------------------------------------

  /** What one entry's card shows. */
  datatype Card = Card(icon: Icon, color: string, title: string, badge: Badge,
                       description: string, download: bool)

  /** One entry's card, with the description line as the source spells it. */
  function CardOf(item: HistoryItem): Card
  {
    Card(TypeIcon(item.itemType), TypeColor(item.itemType), item.title, StatusBadge(item.status),
         DescriptionLineAsWritten(item), DownloadOffered(item))
  }

  datatype HistoryView = Loading | LoadFailed | NoHistory | Listing(cards: seq<Card>)

  /** The page: a loader while the query runs, an error card if it failed, a
      placeholder for an empty list, and otherwise one card per entry in order. */
  function View(isLoading: bool, failed: bool, data: Option<seq<HistoryItem>>): (r: HistoryView)
    ensures r.Loading? <==> isLoading
    ensures r.LoadFailed? <==> !isLoading && failed
    ensures r.NoHistory? <==> !isLoading && !failed && |Items(data)| == 0
    ensures r.Listing? ==> |r.cards| == |Items(data)|
    ensures r.Listing? ==> forall i :: 0 <= i < |r.cards| ==>
              && r.cards[i].title == Items(data)[i].title
              && (r.cards[i].download <==> Items(data)[i].status == "completed")
              && (r.cards[i].icon == HistoryIcon <==> Items(data)[i].itemType !in KnownTypes)
              && r.cards[i].icon == TypeIcon(Items(data)[i].itemType)
              && r.cards[i].color == TypeColor(Items(data)[i].itemType)
              && r.cards[i].badge == StatusBadge(Items(data)[i].status)
              && r.cards[i].description == DescriptionLineAsWritten(Items(data)[i])
  {
    if isLoading then Loading
    else if failed then LoadFailed
    else
      var items := Items(data);
      if |items| == 0 then NoHistory
      else Listing(seq(|items|, i requires 0 <= i < |items| => CardOf(items[i])))
  }

  /** The page's query: `getHistory(50)`. */
  method FetchHistory(client: Client) returns (req: Request)
    ensures req.verb == Get && Text.StartsWith(req.path, HistoryLimitQuery)
    ensures CarriesCredentialOf(req, client.common)
    ensures var digits := req.path[|HistoryLimitQuery|..];
            (forall i :: 0 <= i < |digits| ==> Text.IsDigit(digits[i]))
            && Text.ParseNat(digits) == HistoryPageLimit
  {
    req := client.GetHistory(Some(HistoryPageLimit));
  }
}
