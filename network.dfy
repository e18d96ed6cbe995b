/** The connection indicator in the header: how the browser's online flag and
    the reported connection quality are classified, and the colour of the dot
    for each class. */
module Network {
  import opened Records

  /** What the browser's connection interface offers: nothing at all, or an
      interface whose effective type may be unreported. */
  datatype Connection = NoApi | Api(effectiveType: Option<string>)

  datatype Status = Online | Weak | Offline

  /** The indicator's status and its label. */
  datatype Reading = Reading(status: Status, text: string)

  /** `updateStatus`: offline first, then the connection quality, then the
      fallback for browsers without a connection interface. */
  function Classify(onLine: bool, conn: Connection): (r: Reading)
    ensures r.status == Offline <==> !onLine
    ensures r.status == Weak <==> onLine && conn.Api? && conn.effectiveType in {Some("slow-2g"), Some("2g"), Some("3g")}
  {
    if !onLine then Reading(Offline, "Offline")
    else match conn {
      case Api(t) =>
        if t == Some("slow-2g") || t == Some("2g") then Reading(Weak, "Sinyal Lemah")
        else if t == Some("3g") then Reading(Weak, "3G / Lambat")
        else Reading(Online, "4G / WiFi")
      case NoApi => Reading(Online, "Online")
    }
  }

  /** Offline wins over any connection report. */
  lemma OfflineWhateverConnection(a: Connection, b: Connection)
    ensures Classify(false, a) == Classify(false, b) == Reading(Offline, "Offline")
  {
  }

  /** The readings for each reported quality, when online. */
  lemma ReadingsOnline(conn: Connection)
    ensures conn.Api? && conn.effectiveType in {Some("slow-2g"), Some("2g")} ==> Classify(true, conn) == Reading(Weak, "Sinyal Lemah")
    ensures conn == Api(Some("3g")) ==> Classify(true, conn) == Reading(Weak, "3G / Lambat")
    ensures conn.Api? && conn.effectiveType !in {Some("slow-2g"), Some("2g"), Some("3g")} ==> Classify(true, conn) == Reading(Online, "4G / WiFi")
    ensures conn == NoApi ==> Classify(true, conn) == Reading(Online, "Online")
  {
  }

  /** The label alone tells the status: no label is used for two statuses. */
  lemma LabelDeterminesStatus(on1: bool, c1: Connection, on2: bool, c2: Connection)
    ensures Classify(on1, c1).text == Classify(on2, c2).text ==> Classify(on1, c1).status == Classify(on2, c2).status
  {
  }

  /** `getColor`: the dot's classes for each status. */
  function Color(s: Status): (r: string)
    ensures r != ""
  {
    match s
    case Online => "bg-emerald-500 shadow-[0_0_10px_rgba(16,185,129,0.8)]"
    case Weak => "bg-amber-500 shadow-[0_0_10px_rgba(245,158,11,0.8)]"
    case Offline => "bg-red-500 shadow-[0_0_10px_rgba(239,68,68,0.8)]"
  }

  /** Every status has its own colour. */
  lemma ColorInjective(s: Status, t: Status)
    ensures Color(s) == Color(t) <==> s == t
  {
    ColorLengths();
  }

  lemma ColorLengths()
    ensures |Color(Online)| == 53 && |Color(Weak)| == 51 && |Color(Offline)| == 48
  {
  }
}
