# drill-geoip-functions, modelled in Dafny

This project models the core of the Drill GeoIP function library and
proves properties of it. The core has two parts.

- **The service-port table.** `SecurityHelperFunctions.getPortHashMap` reads the
  packaged CSV of service names and port numbers line by line.
  - A line is kept when it matches `^[a-zA-Z0-9_-]*,\d+,`.
  - A kept line is split with `String.split(",")`, which drops trailing empty fields.
  - The entry is `values[1] + ":" + values[2]` mapped to `values[3]`, or to `""`
    when there are exactly three fields.
  - A later line with the same key overwrites an earlier one.
  - A missing resource raises a data-read error. Any exception while
    parsing makes the whole load fail with a validation error.
  - Module `PortTable` (`port_table.dfy`) models it in two forms:
    1. pure functions (`Matches`, `Split`, `ParseInt`, `ParseLine`, `Load`);
    2. the imperative loop `GetPortHashMap`, proved equal to `Load`.
- **The GeoIP lookups.** Each of the 22 `*Function` classes in `GeoIPFunctions`
  works the same way:
  - it parses the address text and queries a MaxMind reader;
  - it extracts one field and falls back to a type-specific sentinel
    when the query throws, and for some fields also when the field is null;
  - it writes the value into its Drill output holder.

  Module `GeoIP` (`geoip.dfy`) models the choice of value. Each eval body is a
  function over an oracle `Reader`. Each function is proved to agree with an
  independent decision table, `Decision`, which states per function:
  - which query it sends and which field it reads (`FieldOf`);
  - its sentinel (`Sentinel`);
  - whether a null becomes the sentinel (`NullBecomesSentinel`).

  Module `GeoIPFunctions` (`geoip_functions.dfy`) models the imperative side:
  - the output holder classes;
  - `DrillBuf.setBytes` on an array;
  - a class for one lookup function: a `reader` workspace field that `Setup`
    assigns, and one eval method per output family that writes the holder.

Each lookup is meant to return its sentinel rather than throw. The code does
not do so in three places, and the model follows the code:
- `getTimezoneFromIP` and `getASNOrganization` do not null-check the field;
  a null string leaves the try and raises a NullPointerException at
  `getBytes()`.
- `getASN` raises when it unboxes a null `Long` outside the try.

Separately, the model assumes that DrillBuf's `setBytes` raises an
IndexOutOfBoundsException when the bytes exceed the buffer's capacity. This
applies to the text of `EvalText` and to the point's encoding in `EvalPoint`.

The MaxMind reader and `InetAddress.getByName` are an oracle. Each of the
four queries maps the address text either to `Failed` or to a record whose
fields may be null. `Failed` covers every exception of the lookup path: an
address that does not parse, one that is not in the database, a database that
does not answer that query, and a null reader field.

## Model

All source paths are under `src/main/java/org/apache/drill/contrib/function/`.

| member | source | states |
|---|---|---|
| PortTable.NameSpan | src/main/java/org/apache/drill/contrib/function/SecurityHelperFunctions.java:90 | the length of the longest prefix of `[a-zA-Z0-9_-]` characters (at most the line's length); NameSpanIsLongest characterises it |
| PortTable.DigitSpan | src/main/java/org/apache/drill/contrib/function/SecurityHelperFunctions.java:90 | the length of the longest prefix of `\d` digits (at most the text's length); DigitSpanIsLongest characterises it |
| PortTable.NameSpanIsLongest | src/main/java/org/apache/drill/contrib/function/SecurityHelperFunctions.java:90 | NameSpan is the longest prefix made of `[a-zA-Z0-9_-]`: every character in it is in the class, and the next one is not |
| PortTable.DigitSpanIsLongest | src/main/java/org/apache/drill/contrib/function/SecurityHelperFunctions.java:90 | DigitSpan is the longest prefix made of `\d` digits |
| PortTable.Matches | src/main/java/org/apache/drill/contrib/function/SecurityHelperFunctions.java:90-102 | computes `m.find()` of the anchored pattern: the longest run of name characters followed by a comma, then the longest run of digits, non-empty and followed by a comma; MatchesIsPattern characterises it |
| PortTable.MatchesWith | src/main/java/org/apache/drill/contrib/function/SecurityHelperFunctions.java:90 | the direct reading of `^[a-zA-Z0-9_-]*,\d+,` with the name length and digit count given: name characters, a comma, one or more digits, a comma; MatchesIsPattern and MatchesWithIsUnique relate it to Matches |
| PortTable.MatchesWithIsUnique | src/main/java/org/apache/drill/contrib/function/SecurityHelperFunctions.java:90 | a line matches the pattern with at most one name length and one digit count |
| PortTable.MatchesIsPattern | src/main/java/org/apache/drill/contrib/function/SecurityHelperFunctions.java:90-102 | `m.find()` of the anchored pattern holds exactly when the line starts with name characters, a comma, one or more digits and a comma |
| PortTable.MatchesLine | src/main/java/org/apache/drill/contrib/function/SecurityHelperFunctions.java:90-102 | a line built from a name, a comma, a digit run and a comma matches, and its port text and rest are those parts |
| PortTable.Fields | src/main/java/org/apache/drill/contrib/function/SecurityHelperFunctions.java:103 | the comma-separated fields of a text, empty ones included; FieldsJoin, JoinFields, FieldsOfField and FieldsOfPrefix characterise it |
| PortTable.FieldsJoin | src/main/java/org/apache/drill/contrib/function/SecurityHelperFunctions.java:103 | the comma fields of a line contain no comma and, joined with commas, give the line back |
| PortTable.JoinFields | src/main/java/org/apache/drill/contrib/function/SecurityHelperFunctions.java:103 | a non-empty list of comma-free fields joined with commas splits back into the same list |
| PortTable.FieldsOfField | src/main/java/org/apache/drill/contrib/function/SecurityHelperFunctions.java:103 | a text without a comma is one field |
| PortTable.FieldsOfPrefix | src/main/java/org/apache/drill/contrib/function/SecurityHelperFunctions.java:103 | a comma-free field followed by a comma and more text gives that field, then the fields of the rest |
| PortTable.FieldsAllEmpty | src/main/java/org/apache/drill/contrib/function/SecurityHelperFunctions.java:103 | every field is empty exactly when the text is nothing but commas |
| PortTable.DropTrailingEmpty | src/main/java/org/apache/drill/contrib/function/SecurityHelperFunctions.java:103 | removes the trailing empty fields, keeping at most as many as it is given; DropTrailingEmptyIsPrefix characterises it |
| PortTable.DropTrailingEmptyIsPrefix | src/main/java/org/apache/drill/contrib/function/SecurityHelperFunctions.java:103 | what split keeps is a prefix of the fields that ends in a non-empty field, and every dropped field is empty |
| PortTable.DropTrailingEmptyIsEmpty | src/main/java/org/apache/drill/contrib/function/SecurityHelperFunctions.java:103 | nothing is kept exactly when every field is empty |
| PortTable.DropTrailingEmptyAfter | src/main/java/org/apache/drill/contrib/function/SecurityHelperFunctions.java:103 | fields before a non-empty field are never dropped |
| PortTable.Split | src/main/java/org/apache/drill/contrib/function/SecurityHelperFunctions.java:103 | computes `String.split(",")`: the fields with the trailing empty ones dropped, and the whole text as the one field of a text without a comma; SplitOfTwoFields and MatchedSplit characterise it |
| PortTable.SplitOfTwoFields | src/main/java/org/apache/drill/contrib/function/SecurityHelperFunctions.java:103 | `split(",")` of two comma-free fields and more text gives the two fields, then the rest's fields with trailing empty ones dropped |
| PortTable.MatchedSplit | src/main/java/org/apache/drill/contrib/function/SecurityHelperFunctions.java:99-103 | a matching line splits into its name, its port text and the rest's fields with trailing empty ones dropped |
| PortTable.DecimalValue | src/main/java/org/apache/drill/contrib/function/SecurityHelperFunctions.java:104 | the value of a decimal digit run; LeadingZeroIgnored characterises it |
| PortTable.ParseInt | src/main/java/org/apache/drill/contrib/function/SecurityHelperFunctions.java:104 | computes `Integer.parseInt`: the value of an optionally signed digit run within the int range, or None for what parseInt rejects; ParseIntIgnoresLeadingZeros and OverflowingPortAborts characterise it |
| PortTable.LeadingZeroIgnored | src/main/java/org/apache/drill/contrib/function/SecurityHelperFunctions.java:104 | a leading zero does not change the value of a digit run |
| PortTable.ParseIntIgnoresLeadingZeros | src/main/java/org/apache/drill/contrib/function/SecurityHelperFunctions.java:104 | `parseInt` gives a port with a leading zero the same result as without it |
| PortTable.ParseLine | src/main/java/org/apache/drill/contrib/function/SecurityHelperFunctions.java:99-111 | the effect of one line: Skip when the pattern does not match, Abort when parseInt or an array index raises, otherwise Put of the key and description; ParseLineOfMatch characterises it |
| PortTable.ParseLineOfMatch | src/main/java/org/apache/drill/contrib/function/SecurityHelperFunctions.java:99-111 | a matching line aborts when its port overflows an int or nothing but commas follows the port; otherwise it puts port + ":" + the third field, with the fourth field or "" as description; the port text is kept verbatim, leading zeros included |
| PortTable.OverflowingPortAborts | src/main/java/org/apache/drill/contrib/function/SecurityHelperFunctions.java:104 | a matching line whose port exceeds Integer.MAX_VALUE aborts instead of being skipped |
| PortTable.TrailingCommasAbort | src/main/java/org/apache/drill/contrib/function/SecurityHelperFunctions.java:103-110 | a matching line with only commas after the port splits into two fields and aborts on the index past the array |
| PortTable.LoneTrailingCommaExample | src/main/java/org/apache/drill/contrib/function/SecurityHelperFunctions.java:103-110 | the line "x,80," aborts |
| PortTable.TrailingCommasFailLoad | src/main/java/org/apache/drill/contrib/function/SecurityHelperFunctions.java:103-120 | a matching line with only commas after its port, such as "x,80,", anywhere in the table fails the whole load with a validation error |
| PortTable.DescribedTail | src/main/java/org/apache/drill/contrib/function/SecurityHelperFunctions.java:103-109 | when the text after the port is a protocol and a description column, ending there or followed by a comma, the protocol is the first kept field and the description the second, or "" when the description and everything after it are empty |
| PortTable.DescribedLine | src/main/java/org/apache/drill/contrib/function/SecurityHelperFunctions.java:103-111 | a matching line whose text after the port is protocol,description, either ending there or followed by a comma and any further columns, puts "port:protocol" with exactly that description |
| PortTable.UndescribedLine | src/main/java/org/apache/drill/contrib/function/SecurityHelperFunctions.java:103-111 | a matching line whose text after the port is one comma-free protocol puts "port:protocol" with the empty description |
| PortTable.Effects | src/main/java/org/apache/drill/contrib/function/SecurityHelperFunctions.java:93-113 | the per-line effects in source order; EffectsOfConcat, EffectPutsKey, BuildFailsIffAbort, LoadFailsIffAbort and the loop invariant of GetPortHashMap are stated over it |
| PortTable.EffectsOfConcat | src/main/java/org/apache/drill/contrib/function/SecurityHelperFunctions.java:93-113 | the loop handles lines one at a time: the effects of two blocks of lines are those of the first block followed by those of the second |
| PortTable.Build | src/main/java/org/apache/drill/contrib/function/SecurityHelperFunctions.java:86-120 | applies the effects to an empty map in order: a put overwrites, a skip changes nothing, the first abort fails with the validation error; BuildContents, BuildFailsIffAbort and BuildStopsAtFailure characterise it |
| PortTable.Load | src/main/java/org/apache/drill/contrib/function/SecurityHelperFunctions.java:86-120 | the build of the lines' effects; LoadKeys, LoadDescriptions and LoadFailsIffAbort characterise it, and GetPortHashMap is proved to return it |
| PortTable.NonMatchingLineSkipped | src/main/java/org/apache/drill/contrib/function/SecurityHelperFunctions.java:99-102 | appending a line the pattern does not match leaves the load's result unchanged |
| PortTable.LaterLineOverwrites | src/main/java/org/apache/drill/contrib/function/SecurityHelperFunctions.java:111 | a later line's put replaces the description an earlier line gave the same key |
| PortTable.BuildStopsAtFailure | src/main/java/org/apache/drill/contrib/function/SecurityHelperFunctions.java:116-120 | once a prefix of the lines has aborted, no later line changes the outcome |
| PortTable.BuildFailsIffAbort | src/main/java/org/apache/drill/contrib/function/SecurityHelperFunctions.java:93-120 | building fails exactly when some line's effect aborts |
| PortTable.LoadFailsIffAbort | src/main/java/org/apache/drill/contrib/function/SecurityHelperFunctions.java:93-120 | the load fails exactly when some line aborts |
| PortTable.BuildFails | src/main/java/org/apache/drill/contrib/function/SecurityHelperFunctions.java:116-120 | the only failure while parsing is the validation error |
| PortTable.OverflowingPortFailsLoad | src/main/java/org/apache/drill/contrib/function/SecurityHelperFunctions.java:104-120 | a port above Integer.MAX_VALUE anywhere in the table fails the whole load with a validation error |
| PortTable.BuildKeys | src/main/java/org/apache/drill/contrib/function/SecurityHelperFunctions.java:86-114 | a successful build holds exactly the keys some effect puts |
| PortTable.BuildLastPuts | src/main/java/org/apache/drill/contrib/function/SecurityHelperFunctions.java:111 | in a successful build each key has the description of the last effect that puts it |
| PortTable.BuildContents | src/main/java/org/apache/drill/contrib/function/SecurityHelperFunctions.java:86-114 | a successful build holds exactly the keys some effect puts, each with the description of the last effect that puts it |
| PortTable.EffectPutsKey | src/main/java/org/apache/drill/contrib/function/SecurityHelperFunctions.java:93-111 | some line puts a key exactly when some effect of the lines does |
| PortTable.LoadKeys | src/main/java/org/apache/drill/contrib/function/SecurityHelperFunctions.java:86-114 | a successful load holds one key for each key some matching line puts, and nothing else |
| PortTable.LoadDescriptions | src/main/java/org/apache/drill/contrib/function/SecurityHelperFunctions.java:86-114 | in a successful load each key has the description of the last line that puts it |
| PortTable.GetPortHashMap | src/main/java/org/apache/drill/contrib/function/SecurityHelperFunctions.java:77-121 | a missing resource gives the data-read error before any line is read; otherwise the while loop returns exactly Load of the lines. Its invariant is that the map equals the build of the lines read so far |
| GeoIP.FamilyOf | src/main/java/org/apache/drill/contrib/function/GeoIPFunctions.java:48-865 | the output holder each of the 22 classes declares: VarChar for the text functions, Int, Float8, Bit, BigInt for getASN, and VarBinary for the point; Evaluate and the eval methods of GeoIPFunction are stated over it |
| GeoIP.InFamily | src/main/java/org/apache/drill/contrib/function/GeoIPFunctions.java:48-865 | a value fits a holder type: text for VarChar, an int for Int, a double for Float8, a flag for Bit, a long for BigInt, a point for VarBinary; Evaluate proves every written value fits its function's holder |
| GeoIP.DatabaseOf | src/main/java/org/apache/drill/contrib/function/GeoIPFunctions.java:56-871 | the database each setup loads: country for the three country functions and isEU, ASN for the two ASN functions, city for the rest, the five anonymity flags included; AnonymityFlagsUseCityDatabase and GeoIPFunction.Setup use it |
| GeoIP.QueryOf | src/main/java/org/apache/drill/contrib/function/GeoIPFunctions.java:64-879 | the query each eval sends: country, city, ASN or anonymous-IP; OnlyItsQueryMatters and FieldOfFailsIffQueryFails characterise it |
| GeoIP.FieldOf | src/main/java/org/apache/drill/contrib/function/GeoIPFunctions.java:64-879 | the field each eval reads from its query's answer: Failed when the query throws, Found(None) for a null, and for the point null when either coordinate is; FieldOfFailsIffQueryFails characterises it |
| GeoIP.Sentinel | src/main/java/org/apache/drill/contrib/function/GeoIPFunctions.java:70-881 | the value each catch assigns: "Unknown", "UNK" for the ISO code, 0, 0.0, false, or the point (0.0, 0.0); SentinelsByFamily characterises it |
| GeoIP.NullBecomesSentinel | src/main/java/org/apache/drill/contrib/function/GeoIPFunctions.java:67-671 | holds for every function except the time zone, the ASN organization and the ASN number, whose null leaves the try; NullTextPolicy, NullNumberGivesSentinel and NullAsnRaises characterise it |
| GeoIP.Decision | src/main/java/org/apache/drill/contrib/function/GeoIPFunctions.java:59-889 | the reference outcome of each eval: the field when present, the sentinel on failure or on a null that becomes the sentinel, a NullPointerException otherwise; each choice function and Evaluate is proved to agree with it, and FailureGivesSentinel and OnlyItsQueryMatters are stated over it |
| GeoIP.TextOutcome | src/main/java/org/apache/drill/contrib/function/GeoIPFunctions.java:348-359 | a String leaving the try: written as text, or a NullPointerException at `getBytes()` when it is null; Timezone and AsnOrganization return through it |
| GeoIP.UnboxInt | src/main/java/org/apache/drill/contrib/function/GeoIPFunctions.java:150-156 | an Integer unboxed inside the try: its value, or the catch's sentinel when it is null; the confidence, radius, income, metro-code and density functions use it and agree with Decision |
| GeoIP.UnboxDouble | src/main/java/org/apache/drill/contrib/function/GeoIPFunctions.java:266-273 | a Double unboxed inside the try: its value, or the catch's sentinel when it is null; Latitude and Longitude use it and agree with Decision |
| GeoIP.CountryName | src/main/java/org/apache/drill/contrib/function/GeoIPFunctions.java:63-72 | the country name agrees with the decision table: the name, or "Unknown" both when it is null and when the lookup throws |
| GeoIP.CountryIsoCode | src/main/java/org/apache/drill/contrib/function/GeoIPFunctions.java:107-116 | the ISO code agrees with the table: the code, or "UNK" for both null and failure |
| GeoIP.CountryConfidence | src/main/java/org/apache/drill/contrib/function/GeoIPFunctions.java:150-156 | the confidence agrees with the table: 0 when the lookup throws or unboxing a null confidence does |
| GeoIP.CityName | src/main/java/org/apache/drill/contrib/function/GeoIPFunctions.java:188-196 | the city name agrees with the table: "Unknown" for both null and failure |
| GeoIP.CityConfidence | src/main/java/org/apache/drill/contrib/function/GeoIPFunctions.java:230-235 | the city confidence agrees with the table: 0 on failure or null |
| GeoIP.Latitude | src/main/java/org/apache/drill/contrib/function/GeoIPFunctions.java:266-273 | the latitude agrees with the table: 0.0 on failure or null |
| GeoIP.Longitude | src/main/java/org/apache/drill/contrib/function/GeoIPFunctions.java:306-313 | the longitude agrees with the table: 0.0 on failure or null |
| GeoIP.Timezone | src/main/java/org/apache/drill/contrib/function/GeoIPFunctions.java:348-355 | the time zone agrees with the table: "Unknown" only when the lookup throws; a null time zone is kept and raises when written |
| GeoIP.AccuracyRadius | src/main/java/org/apache/drill/contrib/function/GeoIPFunctions.java:393-400 | the accuracy radius agrees with the table: 0 on failure or null |
| GeoIP.AverageIncome | src/main/java/org/apache/drill/contrib/function/GeoIPFunctions.java:430-437 | the average income agrees with the table: 0 on failure or null |
| GeoIP.MetroCode | src/main/java/org/apache/drill/contrib/function/GeoIPFunctions.java:467-474 | the metro code agrees with the table: 0 on failure or null |
| GeoIP.PopulationDensity | src/main/java/org/apache/drill/contrib/function/GeoIPFunctions.java:501-508 | the population density agrees with the table: 0 on failure or null |
| GeoIP.InEuropeanUnion | src/main/java/org/apache/drill/contrib/function/GeoIPFunctions.java:535-540 | the European Union flag agrees with the table: the country's flag, or false when the lookup throws |
| GeoIP.PostalCode | src/main/java/org/apache/drill/contrib/function/GeoIPFunctions.java:576-585 | the postal code agrees with the table: "Unknown" for both null and failure |
| GeoIP.CoordPoint | src/main/java/org/apache/drill/contrib/function/GeoIPFunctions.java:623-633 | the point agrees with the table: (longitude, latitude) with SRID 4326, or (0.0, 0.0) when the lookup throws or either coordinate is null |
| GeoIP.AsnNumber | src/main/java/org/apache/drill/contrib/function/GeoIPFunctions.java:666-671 | the ASN agrees with the table: 0 when the lookup throws; a null number raises when unboxed outside the try |
| GeoIP.AsnOrganization | src/main/java/org/apache/drill/contrib/function/GeoIPFunctions.java:700-704 | the organization agrees with the table: "Unknown" only when the lookup throws; a null is kept and raises when written |
| GeoIP.Anonymous | src/main/java/org/apache/drill/contrib/function/GeoIPFunctions.java:734-739 | the flag agrees with the table: the anonymous-IP record's flag, or false when the query throws |
| GeoIP.AnonymousVpn | src/main/java/org/apache/drill/contrib/function/GeoIPFunctions.java:770-775 | as Anonymous, for the VPN flag |
| GeoIP.HostingProvider | src/main/java/org/apache/drill/contrib/function/GeoIPFunctions.java:806-811 | as Anonymous, for the hosting-provider flag |
| GeoIP.PublicProxy | src/main/java/org/apache/drill/contrib/function/GeoIPFunctions.java:842-847 | as Anonymous, for the public-proxy flag |
| GeoIP.TorExitNode | src/main/java/org/apache/drill/contrib/function/GeoIPFunctions.java:878-883 | as Anonymous, for the Tor-exit-node flag |
| GeoIP.Evaluate | src/main/java/org/apache/drill/contrib/function/GeoIPFunctions.java:59-889 | every function's eval body gives its decision-table outcome; a value written fits the function's holder; only the time zone, ASN organization and ASN number can raise |
| GeoIP.FieldOfFailsIffQueryFails | src/main/java/org/apache/drill/contrib/function/GeoIPFunctions.java:59-889 | each function's field is missing exactly when its own query throws |
| GeoIP.FailureGivesSentinel | src/main/java/org/apache/drill/contrib/function/GeoIPFunctions.java:59-889 | whenever a function's query throws, its eval writes its sentinel |
| GeoIP.AbsentReaderGivesSentinel | src/main/java/org/apache/drill/contrib/function/GeoIPFunctions.java:53 | with the reader field still null, every function writes its sentinel |
| GeoIP.OnlyItsQueryMatters | src/main/java/org/apache/drill/contrib/function/GeoIPFunctions.java:59-889 | two readers that agree on a function's query give it the same outcome |
| GeoIP.AnonymityFlagsUseCityDatabase | src/main/java/org/apache/drill/contrib/function/GeoIPFunctions.java:726-880 | the five anonymity flags load the City database and send the anonymous-IP query |
| GeoIP.SentinelsByFamily | src/main/java/org/apache/drill/contrib/function/GeoIPFunctions.java:59-889 | each sentinel fits its holder: "Unknown" for text except "UNK" for the ISO code, the two being different; 0 for INT; 0.0 for FLOAT8; false for flags; 0 for the ASN |
| GeoIP.NullTextPolicy | src/main/java/org/apache/drill/contrib/function/GeoIPFunctions.java:348-355 | a null country name, ISO code, city name or postal code gives the sentinel; a null time zone or ASN organization raises instead |
| GeoIP.NullNumberGivesSentinel | src/main/java/org/apache/drill/contrib/function/GeoIPFunctions.java:150-156 | a null number or coordinate, unboxed inside the try, gives the sentinel as an explicit null check would |
| GeoIP.NullAsnRaises | src/main/java/org/apache/drill/contrib/function/GeoIPFunctions.java:664-671 | a null ASN number raises instead of giving 0 |
| GeoIP.FlagsNeverRaise | src/main/java/org/apache/drill/contrib/function/GeoIPFunctions.java:535-545 | every flag function writes a flag and never raises |
| GeoIP.CoordPointOrder | src/main/java/org/apache/drill/contrib/function/GeoIPFunctions.java:623-633 | the point's x is the longitude and its y the latitude when both are present; both are 0.0 otherwise; the SRID is always 4326 |
| GeoIP.CoordPointAgreesWithCoordinates | src/main/java/org/apache/drill/contrib/function/GeoIPFunctions.java:623-633 | with both coordinates present, the point is built from what the longitude and latitude functions return |
| GeoIPFunctions.SetBytes | src/main/java/org/apache/drill/contrib/function/GeoIPFunctions.java:77 | the bytes are copied to offset 0 and the rest of the buffer is unchanged; bytes beyond the capacity raise and nothing is copied |
| GeoIPFunctions.GeoIPFunction.constructor | src/main/java/org/apache/drill/contrib/function/GeoIPFunctions.java:52-53 | the reader workspace field starts null |
| GeoIPFunctions.GeoIPFunction.Setup | src/main/java/org/apache/drill/contrib/function/GeoIPFunctions.java:55-57 | setup assigns the reader of the function's own database; when that loader raises, the field keeps its value |
| GeoIPFunctions.GeoIPFunction.EvalText | src/main/java/org/apache/drill/contrib/function/GeoIPFunctions.java:74-77 | out.buffer is the buffer and out.start is 0. out.end is the byte length of the chosen string, whose bytes land at offset 0, so the holder reads as that string. A null raises with out.end and the buffer untouched; an overlong string raises in the copy |
| GeoIPFunctions.GeoIPFunction.EvalInt | src/main/java/org/apache/drill/contrib/function/GeoIPFunctions.java:157 | out.value is the chosen number |
| GeoIPFunctions.GeoIPFunction.EvalFloat | src/main/java/org/apache/drill/contrib/function/GeoIPFunctions.java:275 | out.value is the chosen coordinate |
| GeoIPFunctions.GeoIPFunction.EvalBit | src/main/java/org/apache/drill/contrib/function/GeoIPFunctions.java:541-545 | out.value is 0 or 1, and 1 exactly when the chosen flag is true |
| GeoIPFunctions.GeoIPFunction.EvalBigInt | src/main/java/org/apache/drill/contrib/function/GeoIPFunctions.java:671 | out.value is the chosen ASN; a null number raises with out.value untouched |
| GeoIPFunctions.GeoIPFunction.EvalPoint | src/main/java/org/apache/drill/contrib/function/GeoIPFunctions.java:633-639 | out.start is 0 and out.end the length of the point's binary encoding, whose bytes land at offset 0, so the holder reads as the encoding |

## Left out

- The MaxMind `DatabaseReader` and its queries are a foreign library over a binary format. They are an oracle: four functions from the address text to Failed or a record.
- `InetAddress.getByName` is foreign code and may resolve names over the network. A failure folds into the oracle's Failed.
- Which queries a database edition answers is not modelled. The anonymity flags query anonymous-IP on the City database, which MaxMind answers with an exception; the model leaves that to the oracle, which may answer Failed.
- The loaders `getCountryDatabaseReader`, `getCityDatabaseReader` and `getASNDatabaseReader` read classpath resources. `Setup` takes the reader each one returns, or None when it raises, so their error messages are not modelled.
- The well-known-binary encoding of the point is Esri code. `EvalPoint` takes it as a parameter `asBinary`.
- Doubles are kept as their 64-bit patterns. Nothing is computed on them.
- The charset of `getBytes()` and the UTF-8 decoding of the input holder are not modelled. Strings from the databases are already bytes, the sentinels are their ASCII bytes, and the address is a `string`.
- Drill annotations, function-name aliases, NULL_IF_NULL handling of a null input, DrillBuf allocation and logging are host plumbing.
- DrillBuf behaviour: the capacity check of `setBytes` is modelled as an IndexOutOfBoundsException before any byte is copied. The buffer does not grow.
- `BufferedReader` and the resource stream of `getPortHashMap` are not modelled. The input is the already-read lines, with None for a missing resource.
- PortTable.ParseInt: accepts only ASCII digits, where `Integer.parseInt` also accepts other Unicode digits. The port text comes from `\d`, which matches ASCII digits only, so the difference never shows.
- The regular expression engine is not modelled. The one fixed pattern is a hand-written predicate, `Matches`.
- No lookup is made to return its sentinel where the code throws: a null time zone, ASN organization or ASN number raises in the model as in the code.
