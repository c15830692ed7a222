/** The value each GeoIP lookup function chooses: a try/catch around a
    MaxMind query that falls back to a sentinel.

    The MaxMind reader and the parsing of the address text are an oracle:
    each query either fails (the address does not parse, it is not in the
    database, the database does not answer that query, or any other
    exception) or finds a record whose fields may be null. */
module GeoIP {
  import opened Wrappers

  // ---------------------------------------------------------------------
  // Java values
  // ---------------------------------------------------------------------

  newtype uint8 = x: int | 0 <= x < 0x100
  newtype int32 = x: int | -0x8000_0000 <= x < 0x8000_0000
  newtype int64 = x: int | -0x8000_0000_0000_0000 <= x < 0x8000_0000_0000_0000

  /** A string as the bytes `getBytes()` gives for it. */
  type Bytes = seq<uint8>

  /** A Java double, kept as its IEEE 754 bit pattern; nothing is computed on it. */
  datatype Float64 = Float64(bits: bv64)

  /** The double 0.0. */
  const PositiveZero: Float64 := Float64(0)

  /** The bytes of "Unknown". */
  const Unknown: Bytes := [0x55, 0x6e, 0x6b, 0x6e, 0x6f, 0x77, 0x6e]

  /** The bytes of "UNK". */
  const Unk: Bytes := [0x55, 0x4e, 0x4b]

  /** The spatial reference id of WGS 84, which every point carries. */
  const Wgs84: int := 4326

  /** An OGC point: x is the longitude, y the latitude. */
  datatype Point = Point(x: Float64, y: Float64, srid: int)

  // ---------------------------------------------------------------------
  // The MaxMind records and the reader
  // ---------------------------------------------------------------------

  /** The country part of a country response; None is a null field. */
  datatype CountryRecord = CountryRecord(
    name: Option<Bytes>,
    isoCode: Option<Bytes>,
    confidence: Option<int32>,
    isInEuropeanUnion: bool)

  /** The location part of a city response. */
  datatype LocationRecord = LocationRecord(
    latitude: Option<Float64>,
    longitude: Option<Float64>,
    timeZone: Option<Bytes>,
    accuracyRadius: Option<int32>,
    averageIncome: Option<int32>,
    metroCode: Option<int32>,
    populationDensity: Option<int32>)

  /** A city response: the city's name and confidence, its location and its
      postal code. The library never returns a null sub-record. */
  datatype CityRecord = CityRecord(
    name: Option<Bytes>,
    confidence: Option<int32>,
    location: LocationRecord,
    postalCode: Option<Bytes>)

  /** An ASN response. */
  datatype AsnRecord = AsnRecord(number: Option<int64>, organization: Option<Bytes>)

  /** An anonymous-IP response; its flags are primitive booleans. */
  datatype AnonymousIpRecord = AnonymousIpRecord(
    isAnonymous: bool,
    isAnonymousVpn: bool,
    isHostingProvider: bool,
    isPublicProxy: bool,
    isTorExitNode: bool)

  /** The outcome of one query: it throws, or it returns a record. */
  datatype Lookup<+R> = Failed | Found(record: R)

  /** A database reader as the four queries it answers for an address text. */
  datatype Reader = Reader(
    country: string -> Lookup<CountryRecord>,
    city: string -> Lookup<CityRecord>,
    asn: string -> Lookup<AsnRecord>,
    anonymousIp: string -> Lookup<AnonymousIpRecord>)

  /** The null reader field before setup has assigned it: every query on it
      throws a NullPointerException, which the functions catch like any
      other exception. */
  const Absent: Reader := Reader(ip => Failed, ip => Failed, ip => Failed, ip => Failed)

  /** The database file a function's setup loads. */
  datatype Database = CountryDatabase | CityDatabase | AsnDatabase

  /** The query a function's eval sends to the reader. */
  datatype Query = CountryQuery | CityQuery | AsnQuery | AnonymousIpQuery

  // ---------------------------------------------------------------------
  // The lookup functions and their decision table
  // ---------------------------------------------------------------------

  /** The 22 lookup functions, by their SQL names. */
  datatype Function =
    | GetCountryName | GetCountryIsoCode | GetCountryConfidence
    | GetCityName | GetCityConfidence
    | GetLatitude | GetLongitude | GetTimezone
    | GetAccuracyRadius | GetAverageIncome | GetMetroCode | GetPopulationDensity
    | IsEu | GetPostalCode | GetCoordPoint
    | GetAsn | GetAsnOrganization
    | IsAnonymous | IsAnonymousVpn | IsHostingProvider | IsPublicProxy | IsTorExitNode

  /** The Java value a function's eval has chosen when it leaves the try. */
  datatype Value =
    | Text(bytes: Bytes)
    | Int(integer: int32)
    | Float(double: Float64)
    | Flag(flag: bool)
    | Long(long: int64)
    | Geometry(point: Point)

  /** What eval does with the chosen value: write it, or raise a
      NullPointerException because a null escaped the try. */
  datatype Outcome = Writes(value: Value) | RaisesNullPointer

  /** The kind of output holder a function writes. */
  datatype Family = TextFamily | IntFamily | FloatFamily | BitFamily | LongFamily | PointFamily

  function FamilyOf(f: Function): Family {
    match f
    case GetCountryName | GetCountryIsoCode | GetCityName | GetTimezone
      | GetPostalCode | GetAsnOrganization => TextFamily
    case GetCountryConfidence | GetCityConfidence | GetAccuracyRadius
      | GetAverageIncome | GetMetroCode | GetPopulationDensity => IntFamily
    case GetLatitude | GetLongitude => FloatFamily
    case IsEu | IsAnonymous | IsAnonymousVpn | IsHostingProvider
      | IsPublicProxy | IsTorExitNode => BitFamily
    case GetAsn => LongFamily
    case GetCoordPoint => PointFamily
  }

  /** The value belongs to the family's holder. */
  predicate InFamily(v: Value, family: Family) {
    match family
    case TextFamily => v.Text?
    case IntFamily => v.Int?
    case FloatFamily => v.Float?
    case BitFamily => v.Flag?
    case LongFamily => v.Long?
    case PointFamily => v.Geometry?
  }

  /** The database each setup loads: the country database for the country
      functions and isEU, the ASN database for the two ASN functions, and
      the city database for all others, the anonymity flags included. */
  function DatabaseOf(f: Function): Database {
    match f
    case GetCountryName | GetCountryIsoCode | GetCountryConfidence | IsEu => CountryDatabase
    case GetAsn | GetAsnOrganization => AsnDatabase
    case _ => CityDatabase
  }

  /** The query each eval sends. */
  function QueryOf(f: Function): Query {
    match f
    case GetCountryName | GetCountryIsoCode | GetCountryConfidence | IsEu => CountryQuery
    case GetAsn | GetAsnOrganization => AsnQuery
    case IsAnonymous | IsAnonymousVpn | IsHostingProvider | IsPublicProxy | IsTorExitNode => AnonymousIpQuery
    case _ => CityQuery
  }

  /** The query q throws for this address. */
  predicate QueryFails(q: Query, reader: Reader, ip: string) {
    match q
    case CountryQuery => reader.country(ip).Failed?
    case CityQuery => reader.city(ip).Failed?
    case AsnQuery => reader.asn(ip).Failed?
    case AnonymousIpQuery => reader.anonymousIp(ip).Failed?
  }

  /** The two readers give the same answer to query q for this address. */
  predicate SameAnswer(q: Query, r1: Reader, r2: Reader, ip: string) {
    match q
    case CountryQuery => r1.country(ip) == r2.country(ip)
    case CityQuery => r1.city(ip) == r2.city(ip)
    case AsnQuery => r1.asn(ip) == r2.asn(ip)
    case AnonymousIpQuery => r1.anonymousIp(ip) == r2.anonymousIp(ip)
  }

  /** The value that stands in when the lookup throws: "Unknown" for text,
      except "UNK" for the ISO code; 0 for numbers; false for flags; 0.0
      for coordinates, and the point (0.0, 0.0). */
  function Sentinel(f: Function): Value {
    match f
    case GetCountryIsoCode => Text(Unk)
    case GetCountryName | GetCityName | GetTimezone | GetPostalCode | GetAsnOrganization => Text(Unknown)
    case GetCountryConfidence | GetCityConfidence | GetAccuracyRadius
      | GetAverageIncome | GetMetroCode | GetPopulationDensity => Int(0)
    case GetLatitude | GetLongitude => Float(PositiveZero)
    case IsEu | IsAnonymous | IsAnonymousVpn | IsHostingProvider
      | IsPublicProxy | IsTorExitNode => Flag(false)
    case GetAsn => Long(0)
    case GetCoordPoint => Geometry(Point(PositiveZero, PositiveZero, Wgs84))
  }

  /** A null field becomes the sentinel: by an explicit null check for the
      country name, ISO code, city name and postal code, and by the
      NullPointerException its unboxing raises inside the try for the
      numbers and coordinates. Only the time zone, the ASN organization and
      the ASN number let a null escape the try. */
  predicate NullBecomesSentinel(f: Function) {
    f != GetTimezone && f != GetAsnOrganization && f != GetAsn
  }

  /** The field each function reads, as the library returns it: Failed when
      its query throws, Found(None) when the field is null. The point reads
      both coordinates and is null when either is. */
  function FieldOf(f: Function, reader: Reader, ip: string): Lookup<Option<Value>> {
    match f
    case GetCountryName => Answer(reader.country(ip), (c: CountryRecord) => TextField(c.name))
    case GetCountryIsoCode => Answer(reader.country(ip), (c: CountryRecord) => TextField(c.isoCode))
    case GetCountryConfidence => Answer(reader.country(ip), (c: CountryRecord) => IntField(c.confidence))
    case GetCityName => Answer(reader.city(ip), (c: CityRecord) => TextField(c.name))
    case GetCityConfidence => Answer(reader.city(ip), (c: CityRecord) => IntField(c.confidence))
    case GetLatitude => Answer(reader.city(ip), (c: CityRecord) => FloatField(c.location.latitude))
    case GetLongitude => Answer(reader.city(ip), (c: CityRecord) => FloatField(c.location.longitude))
    case GetTimezone => Answer(reader.city(ip), (c: CityRecord) => TextField(c.location.timeZone))
    case GetAccuracyRadius => Answer(reader.city(ip), (c: CityRecord) => IntField(c.location.accuracyRadius))
    case GetAverageIncome => Answer(reader.city(ip), (c: CityRecord) => IntField(c.location.averageIncome))
    case GetMetroCode => Answer(reader.city(ip), (c: CityRecord) => IntField(c.location.metroCode))
    case GetPopulationDensity => Answer(reader.city(ip), (c: CityRecord) => IntField(c.location.populationDensity))
    case IsEu => Answer(reader.country(ip), (c: CountryRecord) => Some(Flag(c.isInEuropeanUnion)))
    case GetPostalCode => Answer(reader.city(ip), (c: CityRecord) => TextField(c.postalCode))
    case GetCoordPoint => Answer(reader.city(ip), (c: CityRecord) => PointField(c.location))
    case GetAsn => Answer(reader.asn(ip), (a: AsnRecord) => LongField(a.number))
    case GetAsnOrganization => Answer(reader.asn(ip), (a: AsnRecord) => TextField(a.organization))
    case IsAnonymous => Answer(reader.anonymousIp(ip), (r: AnonymousIpRecord) => Some(Flag(r.isAnonymous)))
    case IsAnonymousVpn => Answer(reader.anonymousIp(ip), (r: AnonymousIpRecord) => Some(Flag(r.isAnonymousVpn)))
    case IsHostingProvider => Answer(reader.anonymousIp(ip), (r: AnonymousIpRecord) => Some(Flag(r.isHostingProvider)))
    case IsPublicProxy => Answer(reader.anonymousIp(ip), (r: AnonymousIpRecord) => Some(Flag(r.isPublicProxy)))
    case IsTorExitNode => Answer(reader.anonymousIp(ip), (r: AnonymousIpRecord) => Some(Flag(r.isTorExitNode)))
  }

  /** One field of a query's answer. */
  function Answer<R>(lookup: Lookup<R>, field: R -> Option<Value>): Lookup<Option<Value>> {
    match lookup
    case Failed => Failed
    case Found(record) => Found(field(record))
  }

  function TextField(s: Option<Bytes>): Option<Value> {
    if s.Some? then Some(Text(s.value)) else None
  }

  function IntField(i: Option<int32>): Option<Value> {
    if i.Some? then Some(Int(i.value)) else None
  }

  function FloatField(d: Option<Float64>): Option<Value> {
    if d.Some? then Some(Float(d.value)) else None
  }

  function LongField(l: Option<int64>): Option<Value> {
    if l.Some? then Some(Long(l.value)) else None
  }

  function PointField(location: LocationRecord): Option<Value> {
    if location.longitude.Some? && location.latitude.Some?
    then Some(Geometry(Point(location.longitude.value, location.latitude.value, Wgs84)))
    else None
  }

  /** The decision table: the field when it is there; the sentinel when the
      query throws, or when the field is null and the function turns a null
      into the sentinel; a NullPointerException otherwise. */
  function Decision(f: Function, reader: Reader, ip: string): Outcome {
    match FieldOf(f, reader, ip)
    case Failed => Writes(Sentinel(f))
    case Found(None) => if NullBecomesSentinel(f) then Writes(Sentinel(f)) else RaisesNullPointer
    case Found(Some(v)) => Writes(v)
  }

  // ---------------------------------------------------------------------
  // The eval bodies
  // ---------------------------------------------------------------------

  /** A String local leaving the try: written as text, or a null on which
      `getBytes()` raises. */
  function TextOutcome(s: Option<Bytes>): Outcome {
    if s.Some? then Writes(Text(s.value)) else RaisesNullPointer
  }

  /** An Integer unboxed into an int inside the try: a null raises a
      NullPointerException there, which the catch turns into `sentinel`. */
  function UnboxInt(i: Option<int32>, sentinel: int32): int32 {
    if i.Some? then i.value else sentinel
  }

  /** A Double unboxed into a double inside the try. */
  function UnboxDouble(d: Option<Float64>, sentinel: Float64): Float64 {
    if d.Some? then d.value else sentinel
  }

  /** getCountryName: the name, "Unknown" when it is null or the lookup throws. */
  function CountryName(reader: Reader, ip: string): (name: Bytes)
    ensures Decision(GetCountryName, reader, ip) == Writes(Text(name))
  {
    match reader.country(ip)
    case Found(country) => if country.name.None? then Unknown else country.name.value
    case Failed => Unknown
  }

  /** getCountryISOCode: the ISO code, "UNK" when it is null or the lookup throws. */
  function CountryIsoCode(reader: Reader, ip: string): (code: Bytes)
    ensures Decision(GetCountryIsoCode, reader, ip) == Writes(Text(code))
  {
    match reader.country(ip)
    case Found(country) => if country.isoCode.None? then Unk else country.isoCode.value
    case Failed => Unk
  }

  /** getCountryConfidence: the confidence, 0 when the lookup throws or
      unboxing a null confidence does. */
  function CountryConfidence(reader: Reader, ip: string): (confidence: int32)
    ensures Decision(GetCountryConfidence, reader, ip) == Writes(Int(confidence))
  {
    match reader.country(ip)
    case Found(country) => UnboxInt(country.confidence, 0)
    case Failed => 0
  }

  /** getCityName: the name, "Unknown" when it is null or the lookup throws. */
  function CityName(reader: Reader, ip: string): (name: Bytes)
    ensures Decision(GetCityName, reader, ip) == Writes(Text(name))
  {
    match reader.city(ip)
    case Found(city) => if city.name.None? then Unknown else city.name.value
    case Failed => Unknown
  }

  /** getCityConfidence: the confidence, or 0. */
  function CityConfidence(reader: Reader, ip: string): (confidence: int32)
    ensures Decision(GetCityConfidence, reader, ip) == Writes(Int(confidence))
  {
    match reader.city(ip)
    case Found(city) => UnboxInt(city.confidence, 0)
    case Failed => 0
  }

  /** getLatitudeFromIP: the latitude, or 0.0. */
  function Latitude(reader: Reader, ip: string): (latitude: Float64)
    ensures Decision(GetLatitude, reader, ip) == Writes(Float(latitude))
  {
    match reader.city(ip)
    case Found(city) => UnboxDouble(city.location.latitude, PositiveZero)
    case Failed => PositiveZero
  }

  /** getLongitudeFromIP: the longitude, or 0.0. */
  function Longitude(reader: Reader, ip: string): (longitude: Float64)
    ensures Decision(GetLongitude, reader, ip) == Writes(Float(longitude))
  {
    match reader.city(ip)
    case Found(city) => UnboxDouble(city.location.longitude, PositiveZero)
    case Failed => PositiveZero
  }

  /** getTimezoneFromIP: the time zone, "Unknown" only when the lookup
      throws; a null time zone is kept (None). */
  function Timezone(reader: Reader, ip: string): (timezone: Option<Bytes>)
    ensures Decision(GetTimezone, reader, ip) == TextOutcome(timezone)
  {
    match reader.city(ip)
    case Found(city) => city.location.timeZone
    case Failed => Some(Unknown)
  }

  /** getAccuracyRadius: the radius, or 0. */
  function AccuracyRadius(reader: Reader, ip: string): (radius: int32)
    ensures Decision(GetAccuracyRadius, reader, ip) == Writes(Int(radius))
  {
    match reader.city(ip)
    case Found(city) => UnboxInt(city.location.accuracyRadius, 0)
    case Failed => 0
  }

  /** getAverageIncome: the income, or 0. */
  function AverageIncome(reader: Reader, ip: string): (income: int32)
    ensures Decision(GetAverageIncome, reader, ip) == Writes(Int(income))
  {
    match reader.city(ip)
    case Found(city) => UnboxInt(city.location.averageIncome, 0)
    case Failed => 0
  }

  /** getMetroCode: the metro code, or 0. */
  function MetroCode(reader: Reader, ip: string): (code: int32)
    ensures Decision(GetMetroCode, reader, ip) == Writes(Int(code))
  {
    match reader.city(ip)
    case Found(city) => UnboxInt(city.location.metroCode, 0)
    case Failed => 0
  }

  /** getPopulationDensity: the density, or 0. */
  function PopulationDensity(reader: Reader, ip: string): (density: int32)
    ensures Decision(GetPopulationDensity, reader, ip) == Writes(Int(density))
  {
    match reader.city(ip)
    case Found(city) => UnboxInt(city.location.populationDensity, 0)
    case Failed => 0
  }

  /** isEU: the country's European Union flag, false when the lookup throws. */
  function InEuropeanUnion(reader: Reader, ip: string): (isEu: bool)
    ensures Decision(IsEu, reader, ip) == Writes(Flag(isEu))
  {
    match reader.country(ip)
    case Found(country) => country.isInEuropeanUnion
    case Failed => false
  }

  /** getPostalCode: the postal code, "Unknown" when it is null or the lookup throws. */
  function PostalCode(reader: Reader, ip: string): (code: Bytes)
    ensures Decision(GetPostalCode, reader, ip) == Writes(Text(code))
  {
    match reader.city(ip)
    case Found(city) => if city.postalCode.None? then Unknown else city.postalCode.value
    case Failed => Unknown
  }

  /** getCoordPoint: the longitude, then the latitude, are unboxed inside
      the try; when either throws, the catch sets both to 0.0. The point is
      built afterwards with x the longitude, y the latitude and SRID 4326. */
  function CoordPoint(reader: Reader, ip: string): (point: Point)
    ensures Decision(GetCoordPoint, reader, ip) == Writes(Geometry(point))
  {
    var (longitude, latitude) :=
      match reader.city(ip)
      case Found(city) =>
        if city.location.longitude.None? || city.location.latitude.None? then (PositiveZero, PositiveZero)
        else (city.location.longitude.value, city.location.latitude.value)
      case Failed => (PositiveZero, PositiveZero);
    Point(longitude, latitude, Wgs84)
  }

  /** getASN: the number as a Long, 0 when the lookup throws; a null number
      is kept (None) and raises when eval unboxes it outside the try. */
  function AsnNumber(reader: Reader, ip: string): (asn: Option<int64>)
    ensures Decision(GetAsn, reader, ip) == (if asn.Some? then Writes(Long(asn.value)) else RaisesNullPointer)
  {
    match reader.asn(ip)
    case Found(response) => response.number
    case Failed => Some(0)
  }

  /** getASNOrganization: the organization, "Unknown" only when the lookup
      throws; a null organization is kept (None). */
  function AsnOrganization(reader: Reader, ip: string): (organization: Option<Bytes>)
    ensures Decision(GetAsnOrganization, reader, ip) == TextOutcome(organization)
  {
    match reader.asn(ip)
    case Found(response) => response.organization
    case Failed => Some(Unknown)
  }

  /** isAnonymous: the flag from the anonymous-IP query, false when it throws. */
  function Anonymous(reader: Reader, ip: string): (flag: bool)
    ensures Decision(IsAnonymous, reader, ip) == Writes(Flag(flag))
  {
    match reader.anonymousIp(ip)
    case Found(response) => response.isAnonymous
    case Failed => false
  }

  /** isAnonymousVPN. */
  function AnonymousVpn(reader: Reader, ip: string): (flag: bool)
    ensures Decision(IsAnonymousVpn, reader, ip) == Writes(Flag(flag))
  {
    match reader.anonymousIp(ip)
    case Found(response) => response.isAnonymousVpn
    case Failed => false
  }

  /** isHostingProvider. */
  function HostingProvider(reader: Reader, ip: string): (flag: bool)
    ensures Decision(IsHostingProvider, reader, ip) == Writes(Flag(flag))
  {
    match reader.anonymousIp(ip)
    case Found(response) => response.isHostingProvider
    case Failed => false
  }

  /** isPublicProxy. */
  function PublicProxy(reader: Reader, ip: string): (flag: bool)
    ensures Decision(IsPublicProxy, reader, ip) == Writes(Flag(flag))
  {
    match reader.anonymousIp(ip)
    case Found(response) => response.isPublicProxy
    case Failed => false
  }

  /** isTORExitNode. */
  function TorExitNode(reader: Reader, ip: string): (flag: bool)
    ensures Decision(IsTorExitNode, reader, ip) == Writes(Flag(flag))
  {
    match reader.anonymousIp(ip)
    case Found(response) => response.isTorExitNode
    case Failed => false
  }

  /** What eval of f does for this address, by way of its own body above. */
  function Evaluate(f: Function, reader: Reader, ip: string): (r: Outcome)
    ensures r == Decision(f, reader, ip)
    ensures r.Writes? ==> InFamily(r.value, FamilyOf(f))
    ensures r.RaisesNullPointer? ==> FamilyOf(f) in {TextFamily, LongFamily} && !NullBecomesSentinel(f)
  {
    match f
    case GetCountryName => Writes(Text(CountryName(reader, ip)))
    case GetCountryIsoCode => Writes(Text(CountryIsoCode(reader, ip)))
    case GetCountryConfidence => Writes(Int(CountryConfidence(reader, ip)))
    case GetCityName => Writes(Text(CityName(reader, ip)))
    case GetCityConfidence => Writes(Int(CityConfidence(reader, ip)))
    case GetLatitude => Writes(Float(Latitude(reader, ip)))
    case GetLongitude => Writes(Float(Longitude(reader, ip)))
    case GetTimezone => TextOutcome(Timezone(reader, ip))
    case GetAccuracyRadius => Writes(Int(AccuracyRadius(reader, ip)))
    case GetAverageIncome => Writes(Int(AverageIncome(reader, ip)))
    case GetMetroCode => Writes(Int(MetroCode(reader, ip)))
    case GetPopulationDensity => Writes(Int(PopulationDensity(reader, ip)))
    case IsEu => Writes(Flag(InEuropeanUnion(reader, ip)))
    case GetPostalCode => Writes(Text(PostalCode(reader, ip)))
    case GetCoordPoint => Writes(Geometry(CoordPoint(reader, ip)))
    case GetAsn => var asn := AsnNumber(reader, ip); if asn.Some? then Writes(Long(asn.value)) else RaisesNullPointer
    case GetAsnOrganization => TextOutcome(AsnOrganization(reader, ip))
    case IsAnonymous => Writes(Flag(Anonymous(reader, ip)))
    case IsAnonymousVpn => Writes(Flag(AnonymousVpn(reader, ip)))
    case IsHostingProvider => Writes(Flag(HostingProvider(reader, ip)))
    case IsPublicProxy => Writes(Flag(PublicProxy(reader, ip)))
    case IsTorExitNode => Writes(Flag(TorExitNode(reader, ip)))
  }

  // ---------------------------------------------------------------------
  // Properties of the decision table
  // ---------------------------------------------------------------------

  /** A function reads only the answer of its own query. */
  lemma FieldOfFailsIffQueryFails(f: Function, reader: Reader, ip: string)
    ensures FieldOf(f, reader, ip).Failed? <==> QueryFails(QueryOf(f), reader, ip)
  {
  }

  /** Whenever the function's query throws, eval writes the sentinel. */
  lemma FailureGivesSentinel(f: Function, reader: Reader, ip: string)
    requires QueryFails(QueryOf(f), reader, ip)
    ensures Evaluate(f, reader, ip) == Writes(Sentinel(f))
  {
    FieldOfFailsIffQueryFails(f, reader, ip);
  }

  /** Before setup, every function writes its sentinel. */
  lemma AbsentReaderGivesSentinel(f: Function, ip: string)
    ensures Evaluate(f, Absent, ip) == Writes(Sentinel(f))
  {
    FailureGivesSentinel(f, Absent, ip);
  }

  /** Two readers that agree on a function's query give the same result:
      the anonymity flags depend on the anonymous-IP query alone, although
      their setup loads the city database. */
  lemma OnlyItsQueryMatters(f: Function, r1: Reader, r2: Reader, ip: string)
    requires SameAnswer(QueryOf(f), r1, r2, ip)
    ensures Evaluate(f, r1, ip) == Evaluate(f, r2, ip)
  {
  }

  /** The anonymity flags query anonymous-IP on the city database. */
  lemma AnonymityFlagsUseCityDatabase(f: Function)
    requires f in {IsAnonymous, IsAnonymousVpn, IsHostingProvider, IsPublicProxy, IsTorExitNode}
    ensures DatabaseOf(f) == CityDatabase && QueryOf(f) == AnonymousIpQuery
    ensures FamilyOf(f) == BitFamily
  {
  }

  /** The sentinels: "Unknown" for text except "UNK" for the ISO code, the
      two being different; 0 for every number; false for every flag. */
  lemma SentinelsByFamily(f: Function)
    ensures InFamily(Sentinel(f), FamilyOf(f))
    ensures FamilyOf(f) == TextFamily ==> Sentinel(f) == Text(if f == GetCountryIsoCode then Unk else Unknown)
    ensures FamilyOf(f) == IntFamily ==> Sentinel(f) == Int(0)
    ensures FamilyOf(f) == FloatFamily ==> Sentinel(f) == Float(PositiveZero)
    ensures FamilyOf(f) == BitFamily ==> Sentinel(f) == Flag(false)
    ensures FamilyOf(f) == LongFamily ==> Sentinel(f) == Long(0)
    ensures Unk != Unknown
  {
  }

  /** A null country name, ISO code, city name or postal code gives the
      text sentinel; a null time zone or ASN organization instead raises. */
  lemma NullTextPolicy(f: Function, reader: Reader, ip: string)
    requires FamilyOf(f) == TextFamily && FieldOf(f, reader, ip) == Found(None)
    ensures f in {GetCountryName, GetCountryIsoCode, GetCityName, GetPostalCode} ==>
              Evaluate(f, reader, ip) == Writes(Sentinel(f))
    ensures f in {GetTimezone, GetAsnOrganization} ==> Evaluate(f, reader, ip) == RaisesNullPointer
  {
  }

  /** A null number or coordinate unboxed inside the try gives the same
      result as an explicit null check would: the sentinel. */
  lemma NullNumberGivesSentinel(f: Function, reader: Reader, ip: string)
    requires FamilyOf(f) in {IntFamily, FloatFamily, PointFamily}
    requires FieldOf(f, reader, ip) == Found(None)
    ensures Evaluate(f, reader, ip) == Writes(Sentinel(f))
  {
  }

  /** A null ASN number raises instead of giving 0. */
  lemma NullAsnRaises(reader: Reader, ip: string)
    requires reader.asn(ip).Found? && reader.asn(ip).record.number.None?
    ensures Evaluate(GetAsn, reader, ip) == RaisesNullPointer
  {
  }

  /** A flag is never null: every flag function writes a flag, the record's
      when the query answers and false when it throws. */
  lemma FlagsNeverRaise(f: Function, reader: Reader, ip: string)
    requires FamilyOf(f) == BitFamily
    ensures Evaluate(f, reader, ip).Writes? && Evaluate(f, reader, ip).value.Flag?
  {
  }

  /** The point has x the longitude and y the latitude when both are
      present, and is (0.0, 0.0) otherwise; its SRID is always 4326. */
  lemma CoordPointOrder(reader: Reader, ip: string)
    ensures CoordPoint(reader, ip).srid == Wgs84
    ensures reader.city(ip).Found? && reader.city(ip).record.location.longitude.Some?
            && reader.city(ip).record.location.latitude.Some? ==>
              CoordPoint(reader, ip).x == reader.city(ip).record.location.longitude.value
              && CoordPoint(reader, ip).y == reader.city(ip).record.location.latitude.value
    ensures (reader.city(ip).Failed? || reader.city(ip).record.location.longitude.None?
             || reader.city(ip).record.location.latitude.None?) ==>
              CoordPoint(reader, ip).x == PositiveZero && CoordPoint(reader, ip).y == PositiveZero
  {
  }

  /** The point carries the same coordinates the latitude and longitude
      functions return, whenever both are present. */
  lemma CoordPointAgreesWithCoordinates(reader: Reader, ip: string)
    requires reader.city(ip).Found?
    requires reader.city(ip).record.location.longitude.Some? && reader.city(ip).record.location.latitude.Some?
    ensures CoordPoint(reader, ip) == Point(Longitude(reader, ip), Latitude(reader, ip), Wgs84)
  {
  }
}
