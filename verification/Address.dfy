/**
 The address grammar, implemented twice: by the Worker (src/lib/transit/addr.ts) and
 by the daemon (daemon/wire.go). Each parser takes its reserved names as a
 parameter, because the two do not reserve the same ones.
 */
module Address {
  import opened Common

  /** The reserved names the daemon looks up in its map. */
  const GO_RESERVED: set<string> := {"transit", "operator"}

  /**
   The Worker looks names up in an object literal, which also answers for the
   properties every object inherits. Of those, only `constructor` is a possible name.
   */
  const TS_RESERVED: set<string> := {"transit", "operator", "constructor"}

  datatype AddressError = InvalidName | InvalidAddress | ReservedName

  datatype TransitAddress =
    | Agent(name: string, host: string, organization: Option<string>, address: string)
    | Room(room: string, organization: Option<string>, address: string)

  // ---------------------------------------------------------------- patterns

  predicate Lower(c: char) {
    'a' <= c <= 'z'
  }

  predicate Digit(c: char) {
    '0' <= c <= '9'
  }

  predicate NameChar(c: char) {
    Lower(c) || Digit(c) || c == '-'
  }

  /** [a-z0-9-]* */
  predicate NameChars(s: string) {
    s == [] || (NameChar(s[0]) && NameChars(s[1..]))
  }

  /** ^[a-z][a-z0-9-]{0,31}$ */
  predicate NamePattern(s: string) {
    1 <= |s| <= 32 && Lower(s[0]) && NameChars(s)
  }

  /** ^[a-z0-9][a-z0-9-]{0,31}$ */
  predicate HostPattern(s: string) {
    1 <= |s| <= 32 && (Lower(s[0]) || Digit(s[0])) && NameChars(s)
  }

  predicate NoDoubledHyphen(s: string) {
    |s| < 2 || (!(s[0] == '-' && s[1] == '-') && NoDoubledHyphen(s[1..]))
  }

  /** ^[a-z0-9]+(-[a-z0-9]+)*$ : no leading, trailing or doubled hyphen. */
  predicate OrganizationPattern(s: string) {
    s != [] && s[0] != '-' && s[|s| - 1] != '-' && NameChars(s) && NoDoubledHyphen(s)
  }

  /** Names hold no separator. */
  lemma {:induction false} NoSeparator(s: string, c: char)
    requires NameChars(s) && !NameChar(c)
    ensures c !in s
  {
    if s != [] {
      assert s == [s[0]] + s[1..];
      NoSeparator(s[1..], c);
    }
  }

  lemma HasSeparator(s: string, c: char)
    requires c in s && !NameChar(c)
    ensures !NameChars(s)
  {
    if NameChars(s) {
      NoSeparator(s, c);
    }
  }

  // ---------------------------------------------------------------- string helpers

  function IndexOf(s: string, c: char): (r: int)
    ensures -1 <= r < |s|
    ensures r == -1 <==> c !in s
    ensures r >= 0 ==> s[r] == c && c !in s[..r]
  {
    if s == [] then -1
    else if s[0] == c then 0
    else
      var r := IndexOf(s[1..], c);
      if r < 0 then -1
      else
        assert s[..r + 1] == [s[0]] + s[1..][..r];
        r + 1
  }

  function LastIndexOf(s: string, c: char): (r: int)
    ensures -1 <= r < |s|
    ensures r == -1 <==> c !in s
    ensures r >= 0 ==> s[r] == c && c !in s[r + 1..]
  {
    if s == [] then -1
    else
      var n := |s| - 1;
      if s[n] == c then n
      else
        var r := LastIndexOf(s[..n], c);
        if r < 0 then
          assert s == s[..n] + [s[n]];
          -1
        else
          assert s[r + 1..] == s[..n][r + 1..] + [s[n]];
          r
  }

  function CountOf(s: string, c: char): nat {
    if s == [] then 0 else (if s[0] == c then 1 else 0) + CountOf(s[1..], c)
  }

  predicate StartsWithHash(s: string) {
    s != [] && s[0] == '#'
  }

  predicate Given(organization: Option<string>) {
    organization.Some? && organization.value != ""
  }

  // ---------------------------------------------------------------- the Worker

  function ValidateName(value: string, reserved: set<string>): Option<AddressError> {
    if !NamePattern(value) then Some(InvalidName) else if value in reserved then Some(ReservedName) else None
  }

  function ValidateHost(value: string, reserved: set<string>): Option<AddressError> {
    if !HostPattern(value) then Some(InvalidName) else if value in reserved then Some(ReservedName) else None
  }

  function ValidateOrganization(value: string): Option<AddressError> {
    if |value| < 2 || |value| > 128 || !OrganizationPattern(value) then Some(InvalidAddress) else None
  }

  function FormatAgent(name: string, host: string, organization: Option<string>, reserved: set<string>): Result<string, AddressError> {
    var badName := ValidateName(name, reserved);
    var badHost := ValidateHost(host, reserved);
    if badName.Some? then Err(badName.value)
    else if badHost.Some? then Err(badHost.value)
    else if Given(organization) && ValidateOrganization(organization.value).Some? then Err(ValidateOrganization(organization.value).value)
    else Ok(if Given(organization) then organization.value + "/" + name + "@" + host else name + "@" + host)
  }

  function FormatRoom(room: string, organization: Option<string>, reserved: set<string>): Result<string, AddressError> {
    var badName := ValidateName(room, reserved);
    if badName.Some? then Err(badName.value)
    else if Given(organization) && ValidateOrganization(organization.value).Some? then Err(ValidateOrganization(organization.value).value)
    else Ok(if Given(organization) then organization.value + "/#" + room else "#" + room)
  }

  function ParseLocal(local: string, organization: Option<string>, reserved: set<string>): Result<TransitAddress, AddressError> {
    if StartsWithHash(local) then
      var room := local[1..];
      var formatted := FormatRoom(room, organization, reserved);
      if ValidateName(room, reserved).Some? then Err(ValidateName(room, reserved).value)
      else if formatted.Err? then Err(formatted.error)
      else Ok(Room(room, organization, formatted.value))
    else
      var at := IndexOf(local, '@');
      if at <= 0 || at != LastIndexOf(local, '@') || at == |local| - 1 then Err(InvalidAddress)
      else
        var name := local[..at];
        var host := local[at + 1..];
        var formatted := FormatAgent(name, host, organization, reserved);
        if ValidateName(name, reserved).Some? then Err(ValidateName(name, reserved).value)
        else if ValidateHost(host, reserved).Some? then Err(ValidateHost(host, reserved).value)
        else if formatted.Err? then Err(formatted.error)
        else Ok(Agent(name, host, organization, formatted.value))
  }

  function Parse(value: string, reserved: set<string>): Result<TransitAddress, AddressError> {
    var slash := IndexOf(value, '/');
    if slash < 0 then ParseLocal(value, None, reserved)
    else if slash == 0 || slash != LastIndexOf(value, '/') || slash == |value| - 1 then Err(InvalidAddress)
    else
      var organization := value[..slash];
      if ValidateOrganization(organization).Some? then Err(ValidateOrganization(organization).value)
      else ParseLocal(value[slash + 1..], Some(organization), reserved)
  }

  function Hashed(local: string): string {
    if StartsWithHash(local) then local else "#" + local
  }

  function ParseRoomTarget(value: string, reserved: set<string>): Result<TransitAddress, AddressError> {
    var slash := IndexOf(value, '/');
    if slash < 0 then Parse(Hashed(value), reserved)
    else
      var parsed := Parse(value[..slash] + "/" + Hashed(value[slash + 1..]), reserved);
      if parsed.Ok? && !parsed.value.Room? then Err(InvalidAddress) else parsed
  }

  // ---------------------------------------------------------------- the daemon

  datatype GoAddress = GoAddress(name: string, host: string)

  function GoRoom(room: string, reserved: set<string>): Option<GoAddress> {
    if !NamePattern(room) || room in reserved then None else Some(GoAddress("#" + room, ""))
  }

  function GoAgent(local: string, reserved: set<string>): Option<GoAddress> {
    if CountOf(local, '@') != 1 || IndexOf(local, '@') < 0 then None
    else
      var at := IndexOf(local, '@');
      var name := local[..at];
      var host := local[at + 1..];
      if !NamePattern(name) || !HostPattern(host) then None
      else if name in reserved || host in reserved then None
      else Some(GoAddress(name, host))
  }

  function GoParse(address: string, reserved: set<string>): Option<GoAddress> {
    if StartsWithHash(address) then GoRoom(address[1..], reserved)
    else if '/' in address then
      if CountOf(address, '/') != 1 then None
      else
        var slash := IndexOf(address, '/');
        var organization := address[..slash];
        var local := address[slash + 1..];
        if |organization| < 2 || |organization| > 128 || !OrganizationPattern(organization) then None
        else if StartsWithHash(local) then GoRoom(local[1..], reserved)
        else GoAgent(local, reserved)
    else GoAgent(address, reserved)
  }

  /** What the daemon reports for an address the Worker parsed. */
  function AsGo(a: TransitAddress): GoAddress {
    match a
    case Agent(name, host, _, _) => GoAddress(name, host)
    case Room(room, _, _) => GoAddress("#" + room, "")
  }

  // ---------------------------------------------------------------- lemmas

  lemma {:induction false} CountZero(s: string, c: char)
    ensures CountOf(s, c) == 0 <==> c !in s
  {
    if s != [] {
      assert s == [s[0]] + s[1..];
      CountZero(s[1..], c);
    }
  }

  /** There is one separator exactly when the first is the last. */
  lemma {:induction false} CountOne(s: string, c: char)
    ensures CountOf(s, c) == 1 <==> IndexOf(s, c) >= 0 && IndexOf(s, c) == LastIndexOf(s, c)
  {
    if s != [] {
      assert s == [s[0]] + s[1..];
      CountZero(s[1..], c);
      CountOne(s[1..], c);
      LastOfTail(s, c);
    }
  }

  lemma LastOfTail(s: string, c: char)
    requires s != []
    ensures LastIndexOf(s[1..], c) >= 0 ==> LastIndexOf(s, c) == LastIndexOf(s[1..], c) + 1
    ensures LastIndexOf(s[1..], c) < 0 ==> LastIndexOf(s, c) == if s[0] == c then 0 else -1
  {
    var r := LastIndexOf(s[1..], c);
    assert s == [s[0]] + s[1..];
    if r >= 0 {
      assert s[r + 2..] == s[1..][r + 1..];
      LastIs(s, c, r + 1);
    } else if s[0] == c {
      LastIs(s, c, 0);
    }
  }

  lemma {:induction false} FirstIs(s: string, c: char, i: nat)
    requires i < |s| && s[i] == c && c !in s[..i]
    ensures IndexOf(s, c) == i
  {
    if i > 0 {
      assert s[0] in s[..i];
      assert s[..i] == [s[0]] + s[1..][..i - 1];
      FirstIs(s[1..], c, i - 1);
    }
  }

  lemma {:induction false} LastIs(s: string, c: char, i: nat)
    requires i < |s| && s[i] == c && c !in s[i + 1..]
    ensures LastIndexOf(s, c) == i
  {
    var n := |s| - 1;
    if i < n {
      assert s[i + 1..][n - i - 1] == s[n];
      assert s[i + 1..] == s[..n][i + 1..] + [s[n]];
      LastIs(s[..n], c, i);
    }
  }

  /** The one place a separator can be found. */
  lemma Located(left: string, c: char, right: string)
    requires c !in left && c !in right
    ensures var s := left + [c] + right;
            && IndexOf(s, c) == |left| == LastIndexOf(s, c)
            && s[..|left|] == left && s[|left| + 1..] == right
  {
    var s := left + [c] + right;
    assert s[..|left|] == left && s[|left| + 1..] == right;
    FirstIs(s, c, |left|);
    LastIs(s, c, |left|);
  }

  lemma SplitAt(s: string, c: char)
    requires c in s
    ensures var i := IndexOf(s, c); s == s[..i] + [c] + s[i + 1..]
  {
  }

  /** Accepted strings are canonical: formatting what was parsed gives back the input. */
  lemma ParseCanonical(value: string, reserved: set<string>)
    ensures Parse(value, reserved).Ok? ==> Parse(value, reserved).value.address == value
  {
    if Parse(value, reserved).Ok? {
      var slash := IndexOf(value, '/');
      if slash < 0 {
        LocalCanonical(value, None, reserved);
      } else {
        SplitAt(value, '/');
        LocalCanonical(value[slash + 1..], Some(value[..slash]), reserved);
        assert value == value[..slash] + "/" + value[slash + 1..];
      }
    }
  }

  lemma LocalCanonical(local: string, organization: Option<string>, reserved: set<string>)
    requires Given(organization) || organization.None?
    requires ParseLocal(local, organization, reserved).Ok?
    ensures ParseLocal(local, organization, reserved).value.address ==
            if organization.Some? then organization.value + "/" + local else local
  {
    if StartsWithHash(local) {
      assert local == "#" + local[1..];
      if organization.Some? {
        RegroupedRoom(organization.value, local[1..]);
      }
    } else {
      SplitAt(local, '@');
      var at := IndexOf(local, '@');
      assert local == local[..at] + "@" + local[at + 1..];
      if organization.Some? {
        Regrouped(organization.value + "/", local[..at], "@", local[at + 1..]);
      }
    }
  }

  lemma Regrouped(prefix: string, name: string, separator: string, host: string)
    ensures prefix + name + separator + host == prefix + (name + separator + host)
  {
  }

  lemma RegroupedRoom(organization: string, room: string)
    ensures organization + "/#" + room == organization + "/" + ("#" + room)
  {
  }

  lemma LocalRoundTrip(name: string, host: string, organization: Option<string>, reserved: set<string>)
    requires FormatAgent(name, host, organization, reserved).Ok? && (Given(organization) || organization.None?)
    ensures ParseLocal(name + "@" + host, organization, reserved) ==
            Ok(Agent(name, host, organization, FormatAgent(name, host, organization, reserved).value))
    ensures '/' !in name + "@" + host
  {
    NoSeparator(name, '@');
    NoSeparator(host, '@');
    NoSeparator(name, '/');
    NoSeparator(host, '/');
    assert name + "@" + host == name + ['@'] + host;
    Located(name, '@', host);
    assert !StartsWithHash(name + "@" + host);
  }

  /** An organization prefix is cut off at the one slash there is. */
  lemma ParseQualified(organization: string, local: string, reserved: set<string>)
    requires ValidateOrganization(organization).None? && local != [] && '/' !in local
    ensures Parse(organization + "/" + local, reserved) == ParseLocal(local, Some(organization), reserved)
  {
    assert organization + "/" + local == organization + ['/'] + local;
    NoSeparator(organization, '/');
    Located(organization, '/', local);
  }

  /** Parsing a formatted agent address gives back its parts. */
  lemma AgentRoundTrip(name: string, host: string, organization: Option<string>, reserved: set<string>)
    ensures var formatted := FormatAgent(name, host, organization, reserved);
            formatted.Ok? ==>
              Parse(formatted.value, reserved) ==
              Ok(Agent(name, host, if Given(organization) then organization else None, formatted.value))
  {
    if FormatAgent(name, host, organization, reserved).Ok? {
      if Given(organization) {
        QualifiedRoundTrip(name, host, organization.value, reserved);
      } else {
        LocalRoundTrip(name, host, None, reserved);
      }
    }
  }

  lemma QualifiedRoundTrip(name: string, host: string, organization: string, reserved: set<string>)
    requires organization != "" && FormatAgent(name, host, Some(organization), reserved).Ok?
    ensures var formatted := FormatAgent(name, host, Some(organization), reserved).value;
            Parse(formatted, reserved) == Ok(Agent(name, host, Some(organization), formatted))
  {
    LocalRoundTrip(name, host, Some(organization), reserved);
    ParseQualified(organization, name + "@" + host, reserved);
    Regrouped(organization + "/", name, "@", host);
  }

  lemma LocalRoom(room: string, organization: Option<string>, reserved: set<string>)
    requires FormatRoom(room, organization, reserved).Ok? && (Given(organization) || organization.None?)
    ensures ParseLocal("#" + room, organization, reserved) == Ok(Room(room, organization, FormatRoom(room, organization, reserved).value))
    ensures '/' !in "#" + room
  {
    NoSeparator(room, '/');
    assert ("#" + room)[1..] == room;
  }

  lemma QualifiedRoom(room: string, organization: string, reserved: set<string>)
    requires organization != "" && FormatRoom(room, Some(organization), reserved).Ok?
    ensures var formatted := FormatRoom(room, Some(organization), reserved).value;
            && Parse(formatted, reserved) == Ok(Room(room, Some(organization), formatted))
            && ParseRoomTarget(formatted, reserved) == Parse(formatted, reserved)
  {
    var local := "#" + room;
    LocalRoom(room, Some(organization), reserved);
    NoSeparator(organization, '/');
    RegroupedRoom(organization, room);
    ParseQualified(organization, local, reserved);
    assert organization + "/" + local == organization + ['/'] + local;
    Located(organization, '/', local);
  }

  /** Parsing a formatted room address, strictly or leniently, gives back its parts. */
  lemma RoomRoundTrip(room: string, organization: Option<string>, reserved: set<string>)
    ensures var formatted := FormatRoom(room, organization, reserved);
            formatted.Ok? ==>
              && Parse(formatted.value, reserved) ==
                 Ok(Room(room, if Given(organization) then organization else None, formatted.value))
              && ParseRoomTarget(formatted.value, reserved) == Parse(formatted.value, reserved)
  {
    if FormatRoom(room, organization, reserved).Ok? {
      if Given(organization) {
        QualifiedRoom(room, organization.value, reserved);
      } else {
        LocalRoom(room, None, reserved);
      }
    }
  }

  /** The lenient parser accepts only rooms, and is idempotent on its own output. */
  lemma RoomTargetIdempotent(value: string, reserved: set<string>)
    ensures var parsed := ParseRoomTarget(value, reserved);
            parsed.Ok? ==> parsed.value.Room? && ParseRoomTarget(parsed.value.address, reserved) == parsed
  {
    var parsed := ParseRoomTarget(value, reserved);
    if parsed.Ok? {
      var slash := IndexOf(value, '/');
      var target := if slash < 0 then Hashed(value) else value[..slash] + "/" + Hashed(value[slash + 1..]);
      assert Parse(target, reserved) == parsed;
      if slash < 0 {
        assert '/' !in target;
      }
      ParseCanonical(target, reserved);
      RoomRoundTrip(parsed.value.room, parsed.value.organization, reserved);
      Consistent(target, reserved);
    }
  }

  /** What an accepted address is made of: valid parts that format to the address it reports. */
  ghost predicate WellFormed(a: TransitAddress, reserved: set<string>) {
    && (Given(a.organization) || a.organization.None?)
    && match a
       case Agent(name, host, organization, address) => FormatAgent(name, host, organization, reserved) == Ok(address)
       case Room(room, organization, address) => FormatRoom(room, organization, reserved) == Ok(address)
  }

  lemma LocalConsistent(local: string, organization: Option<string>, reserved: set<string>)
    requires Given(organization) || organization.None?
    requires ParseLocal(local, organization, reserved).Ok?
    ensures WellFormed(ParseLocal(local, organization, reserved).value, reserved)
  {
  }

  lemma Consistent(value: string, reserved: set<string>)
    ensures Parse(value, reserved).Ok? ==> WellFormed(Parse(value, reserved).value, reserved)
  {
    if Parse(value, reserved).Ok? {
      var slash := IndexOf(value, '/');
      if slash < 0 {
        LocalConsistent(value, None, reserved);
      } else {
        LocalConsistent(value[slash + 1..], Some(value[..slash]), reserved);
      }
    }
  }

  /** For one shared reserved set the two parsers accept the same strings and agree on name and host. */
  lemma ParsersAgree(value: string, reserved: set<string>)
    ensures GoParse(value, reserved) ==
            if Parse(value, reserved).Ok? then Some(AsGo(Parse(value, reserved).value)) else None
  {
    var slash := IndexOf(value, '/');
    CountOne(value, '/');
    if slash < 0 {
      LocalAgrees(value, None, reserved);
    } else if StartsWithHash(value) {
      assert value[..slash] == [] || value[..slash][0] == '#';
      assert value[1..][slash - 1] == '/';
      HasSeparator(value[1..], '/');
    } else {
      var local := value[slash + 1..];
      if slash > 0 && ValidateOrganization(value[..slash]).None? {
        LocalAgrees(local, Some(value[..slash]), reserved);
      }
    }
  }

  // What the local part is, whoever reads it: the split, the checks and the value.

  predicate OneAt(local: string) {
    var at := IndexOf(local, '@');
    at > 0 && at == LastIndexOf(local, '@') && at != |local| - 1
  }

  function NameIn(local: string): string {
    if StartsWithHash(local) then local[1..] else if IndexOf(local, '@') < 0 then local else local[..IndexOf(local, '@')]
  }

  function HostIn(local: string): string {
    if StartsWithHash(local) || IndexOf(local, '@') < 0 then "" else local[IndexOf(local, '@') + 1..]
  }

  predicate LocalValid(local: string, reserved: set<string>) {
    && ValidateName(NameIn(local), reserved).None?
    && (StartsWithHash(local) || (OneAt(local) && ValidateHost(HostIn(local), reserved).None?))
  }

  function LocalValue(local: string, organization: Option<string>): TransitAddress {
    if StartsWithHash(local)
    then Room(NameIn(local), organization, if organization.Some? then organization.value + "/#" + NameIn(local) else "#" + NameIn(local))
    else Agent(NameIn(local), HostIn(local), organization,
               if organization.Some? then organization.value + "/" + NameIn(local) + "@" + HostIn(local) else NameIn(local) + "@" + HostIn(local))
  }

  predicate Usable(organization: Option<string>) {
    organization.Some? ==> organization.value != "" && ValidateOrganization(organization.value).None?
  }

  lemma LocalShape(local: string, organization: Option<string>, reserved: set<string>)
    requires Usable(organization)
    ensures ParseLocal(local, organization, reserved).Ok? <==> LocalValid(local, reserved)
    ensures LocalValid(local, reserved) ==> ParseLocal(local, organization, reserved) == Ok(LocalValue(local, organization))
  {
    if !StartsWithHash(local) && OneAt(local) {
      AtShape(local, organization, reserved);
    }
  }

  lemma AtShape(local: string, organization: Option<string>, reserved: set<string>)
    requires Usable(organization) && !StartsWithHash(local) && OneAt(local)
    ensures ParseLocal(local, organization, reserved).Ok? <==> LocalValid(local, reserved)
    ensures LocalValid(local, reserved) ==> ParseLocal(local, organization, reserved) == Ok(LocalValue(local, organization))
  {
  }

  lemma GoShape(local: string, reserved: set<string>)
    ensures (if StartsWithHash(local) then GoRoom(local[1..], reserved) else GoAgent(local, reserved)) ==
            if LocalValid(local, reserved) then Some(AsGo(LocalValue(local, None))) else None
  {
    CountOne(local, '@');
  }

  lemma LocalAgrees(local: string, organization: Option<string>, reserved: set<string>)
    requires Usable(organization)
    ensures (if StartsWithHash(local) then GoRoom(local[1..], reserved) else GoAgent(local, reserved)) ==
            if ParseLocal(local, organization, reserved).Ok? then Some(AsGo(ParseLocal(local, organization, reserved).value)) else None
  {
    GoShape(local, reserved);
    LocalShape(local, organization, reserved);
  }

  predicate Mentions(a: TransitAddress, name: string) {
    match a
    case Agent(n, host, _, _) => n == name || host == name
    case Room(room, _, _) => room == name
  }

  /** Reserving one more name refuses exactly the addresses that mention it. */
  lemma ReservingMore(value: string, reserved: set<string>, name: string)
    ensures Parse(value, reserved + {name}).Ok? <==> Parse(value, reserved).Ok? && !Mentions(Parse(value, reserved).value, name)
    ensures Parse(value, reserved + {name}).Ok? ==> Parse(value, reserved + {name}) == Parse(value, reserved)
  {
    var slash := IndexOf(value, '/');
    if slash < 0 {
      LocalReservingMore(value, None, reserved, name);
    } else if slash > 0 && ValidateOrganization(value[..slash]).None? {
      LocalReservingMore(value[slash + 1..], Some(value[..slash]), reserved, name);
    }
  }

  lemma LocalReservingMore(local: string, organization: Option<string>, reserved: set<string>, name: string)
    requires Usable(organization)
    ensures ParseLocal(local, organization, reserved + {name}).Ok? <==>
            ParseLocal(local, organization, reserved).Ok? && !Mentions(ParseLocal(local, organization, reserved).value, name)
    ensures ParseLocal(local, organization, reserved + {name}).Ok? ==>
              ParseLocal(local, organization, reserved + {name}) == ParseLocal(local, organization, reserved)
  {
    LocalShape(local, organization, reserved);
    LocalShape(local, organization, reserved + {name});
    ValidReservingMore(local, organization, reserved, name);
  }

  lemma ValidReservingMore(local: string, organization: Option<string>, reserved: set<string>, name: string)
    ensures LocalValid(local, reserved + {name}) <==> LocalValid(local, reserved) && !Mentions(LocalValue(local, organization), name)
  {
    NameReservingMore(NameIn(local), reserved, name);
    NameReservingMore(HostIn(local), reserved, name);
  }

  lemma NameReservingMore(value: string, reserved: set<string>, name: string)
    ensures ValidateName(value, reserved + {name}).None? <==> ValidateName(value, reserved).None? && value != name
    ensures ValidateHost(value, reserved + {name}).None? <==> ValidateHost(value, reserved).None? && value != name
  {
  }

  /**
   As they stand the parsers disagree: the Worker accepts what the daemon accepts
   except where an agent, host or room is called `constructor`.
   */
  lemma ParsersDisagreeExactly(value: string)
    ensures Parse(value, TS_RESERVED).Ok? <==>
            GoParse(value, GO_RESERVED).Some?
            && GoParse(value, GO_RESERVED).value.name !in {"constructor", "#constructor"}
            && GoParse(value, GO_RESERVED).value.host != "constructor"
  {
    ReservingMore(value, GO_RESERVED, "constructor");
    assert GO_RESERVED + {"constructor"} == TS_RESERVED;
    ParsersAgree(value, GO_RESERVED);
    if Parse(value, GO_RESERVED).Ok? {
      Consistent(value, GO_RESERVED);
      HashNeverName(Parse(value, GO_RESERVED).value);
    }
  }

  lemma HashNeverName(a: TransitAddress)
    requires WellFormed(a, GO_RESERVED)
    ensures Mentions(a, "constructor") <==> AsGo(a).name in {"constructor", "#constructor"} || AsGo(a).host == "constructor"
  {
    match a
    case Agent(name, _, _, _) =>
      assert Lower(name[0]);
      assert "#constructor"[0] == '#';
      assert name != "#constructor";
    case Room(room, _, _) =>
      assert AsGo(a) == GoAddress("#" + room, "") && |""| == 0 && |"constructor"| == 11;
      assert ("#" + room)[1..] == room && ("#" + room)[0] == '#';
      assert "#constructor" == "#" + "constructor" && "#constructor"[1..] == "constructor" && "constructor"[0] == 'c';
      assert "#" + room != "constructor";
      assert "#" + room == "#constructor" <==> room == "constructor";
  }

  lemma {:induction false} EachNameChar(s: string)
    requires forall i :: 0 <= i < |s| ==> NameChar(s[i])
    ensures NameChars(s)
  {
    if s != [] {
      EachNameChar(s[1..]);
    }
  }

  lemma ConstructorIsName()
    ensures NamePattern("constructor")
  {
    EachNameChar("constructor");
  }

  /** For instance, the daemon routes to an agent the Worker says is reserved. */
  lemma ConstructorDiffers(host: string)
    requires HostPattern(host) && host !in TS_RESERVED
    ensures var address := "constructor" + "@" + host;
            GoParse(address, GO_RESERVED) == Some(GoAddress("constructor", host)) && Parse(address, TS_RESERVED).Err?
  {
    ConstructorIsName();
    RefusedByOne("constructor", host);
  }

  lemma RefusedByOne(name: string, host: string)
    requires NamePattern(name) && HostPattern(host) && name !in GO_RESERVED && host !in GO_RESERVED && name in TS_RESERVED
    ensures GoParse(name + "@" + host, GO_RESERVED) == Some(GoAddress(name, host))
    ensures Parse(name + "@" + host, TS_RESERVED).Err?
  {
    AgentRoundTrip(name, host, None, GO_RESERVED);
    ParsersAgree(name + "@" + host, GO_RESERVED);
    assert GO_RESERVED + {name} == TS_RESERVED;
    ReservingMore(name + "@" + host, GO_RESERVED, name);
  }
}
