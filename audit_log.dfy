/** The activity log page: its search with the entity-type filter, the
    relative time shown for each entry, and the icon and label tables
    keyed by entity type. */
module ActivityLog {
  import opened Wrappers
  import opened Types
  import opened Text
  import opened Seqs

  // ---------------------------------------------------------------------
  // Search

  /** Action, user name or details contain the query, ignoring case, and
      the entity type is the one chosen, or every type is allowed. */
  predicate EntryShown(e: AuditEntry, query: string, typeFilter: string) {
    (Contains(Lower(e.action), Lower(query))
      || Contains(Lower(e.userName), Lower(query))
      || Contains(Lower(e.details), Lower(query)))
    && (typeFilter == "all" || e.entityType == typeFilter)
  }

  function Shown(query: string, typeFilter: string): AuditEntry -> bool {
    (e: AuditEntry) => EntryShown(e, query, typeFilter)
  }

  function FilteredLogs(logs: seq<AuditEntry>, query: string, typeFilter: string): (r: seq<AuditEntry>)
    ensures |r| <= |logs|
    ensures forall e :: e in r <==> e in logs && EntryShown(e, query, typeFilter)
  {
    Filter(logs, Shown(query, typeFilter))
  }

  /** The search ignores the case of the query. */
  lemma SearchIgnoresQueryCase(e: AuditEntry, query: string, typeFilter: string)
    ensures EntryShown(e, query, typeFilter) <==> EntryShown(e, Lower(query), typeFilter)
  {
    LowerIdempotent(query);
  }

  /** With no query and every type allowed the whole log is shown. */
  lemma NoFilterShowsAll(logs: seq<AuditEntry>)
    ensures FilteredLogs(logs, "", "all") == logs
  {
    forall e | e in logs ensures Shown("", "all")(e) {
      assert IsPrefix("", Lower(e.action));
    }
    FilterKeepsAll(logs, Shown("", "all"));
  }

  /** Choosing a type never shows more than "all" for the same query. */
  lemma {:induction false} TypeFilterNarrows(logs: seq<AuditEntry>, query: string, typeFilter: string)
    ensures |FilteredLogs(logs, query, typeFilter)| <= |FilteredLogs(logs, query, "all")|
  {
    if logs != [] {
      TypeFilterNarrows(logs[1..], query, typeFilter);
    }
  }

  // ---------------------------------------------------------------------
  // Relative time

  const MinuteMs: int := 60000
  const HourMs: int := 3600000
  const DayMs: int := 86400000

  /** What `formatTimestamp` shows: minutes, hours or days ago, or the
      date itself (its locale formatting is left out). */
  datatype TimeAgo = MinutesAgo(n: int) | HoursAgo(n: int) | DaysAgo(n: int) | OnDate(timestamp: int)

  /** The time shown for an entry stamped `timestamp`, read at `now`, both
      in milliseconds. The divisors are positive, so `/` is the floor
      division of `Math.floor(diffMs / unit)`. */
  function FormatTimestamp(timestamp: int, now: int): (r: TimeAgo)
    ensures r.MinutesAgo? ==> r.n < 60 && r.n * MinuteMs <= now - timestamp < (r.n + 1) * MinuteMs
    ensures r.HoursAgo? ==> 1 <= r.n < 24 && r.n * HourMs <= now - timestamp < (r.n + 1) * HourMs
    ensures r.DaysAgo? ==> 1 <= r.n < 7 && r.n * DayMs <= now - timestamp < (r.n + 1) * DayMs
    ensures r.OnDate? ==> r.timestamp == timestamp && 7 * DayMs <= now - timestamp
  {
    var diff := now - timestamp;
    FloorDivision(diff, MinuteMs);
    FloorDivision(diff, HourMs);
    FloorDivision(diff, DayMs);
    if diff / MinuteMs < 60 then MinutesAgo(diff / MinuteMs)
    else if diff / HourMs < 24 then HoursAgo(diff / HourMs)
    else if diff / DayMs < 7 then DaysAgo(diff / DayMs)
    else OnDate(timestamp)
  }

  /** For an entry in the past, each form is shown for exactly one span of
      elapsed time: under an hour, from an hour to a day, from a day to a
      week, and a week or more; the count shown lies in its unit's range. */
  lemma TimeAgoBuckets(timestamp: int, now: int)
    requires timestamp <= now
    ensures var d := now - timestamp; var r := FormatTimestamp(timestamp, now);
      && (r.MinutesAgo? <==> d < HourMs)
      && (r.HoursAgo? <==> HourMs <= d < DayMs)
      && (r.DaysAgo? <==> DayMs <= d < 7 * DayMs)
      && (r.OnDate? <==> 7 * DayMs <= d)
      && (r.MinutesAgo? ==> 0 <= r.n < 60 && r.n * MinuteMs <= d < (r.n + 1) * MinuteMs)
      && (r.HoursAgo? ==> 1 <= r.n < 24 && r.n * HourMs <= d < (r.n + 1) * HourMs)
      && (r.DaysAgo? ==> 1 <= r.n < 7 && r.n * DayMs <= d < (r.n + 1) * DayMs)
  {
    var d := now - timestamp;
    FloorDivision(d, MinuteMs);
    FloorDivision(d, HourMs);
    FloorDivision(d, DayMs);
  }

  /** `q` is the floor of `d / unit`: the largest multiple of `unit` not
      above `d`. */
  lemma FloorDivision(d: int, unit: int)
    requires unit > 0
    ensures (d / unit) * unit <= d < (d / unit + 1) * unit
  {
  }

  /** An entry stamped in the future shows a negative number of minutes. */
  lemma FutureShowsNegativeMinutes(timestamp: int, now: int)
    requires now < timestamp
    ensures FormatTimestamp(timestamp, now).MinutesAgo?
    ensures FormatTimestamp(timestamp, now).n < 0
  {
    FloorDivision(now - timestamp, MinuteMs);
  }

  // ---------------------------------------------------------------------
  // Icons and labels

  datatype Icon = ShoppingCartIcon | PackageIcon | UserIcon | SettingsIcon | FileTextIcon

  /** The icon table, as a lookup that may miss. */
  function IconEntry(entityType: string): Option<Icon> {
    if entityType == "sale" then Some(ShoppingCartIcon)
    else if entityType == "product" then Some(PackageIcon)
    else if entityType == "user" then Some(UserIcon)
    else if entityType == "settings" then Some(SettingsIcon)
    else if entityType == "auth" then Some(UserIcon)
    else if entityType == "branch" then Some(SettingsIcon)
    else None
  }

  /** The icon drawn for an entry: its type's icon, or the document icon
      when the table has none. */
  function EntryIcon(entityType: string): (r: Icon)
    ensures IconEntry(entityType).None? <==> r == FileTextIcon
    ensures IconEntry(entityType).Some? ==> r == IconEntry(entityType).value
  {
    IconEntry(entityType).GetOr(FileTextIcon)
  }

  /** The label table, which also lists the choices of the type filter. */
  function LabelEntry(entityType: string): Option<string> {
    if entityType == "sale" then Some("Ventas")
    else if entityType == "product" then Some("Productos")
    else if entityType == "user" then Some("Usuarios")
    else if entityType == "settings" then Some("Configuración")
    else if entityType == "auth" then Some("Autenticación")
    else if entityType == "branch" then Some("Sucursales")
    else None
  }

  /** The two tables have the same keys, so every type the filter offers
      has an icon of its own, and any other type is drawn with the
      document icon. */
  lemma TablesShareKeys(entityType: string)
    ensures LabelEntry(entityType).Some? <==> IconEntry(entityType).Some?
    ensures LabelEntry(entityType).None? <==> EntryIcon(entityType) == FileTextIcon
  {
  }
}
