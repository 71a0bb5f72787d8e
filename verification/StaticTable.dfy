/** The static table of QPACK, Appendix A of RFC 9204, and the two lookups the source makes in it. */
module StaticTable {
  import opened Wire

  const SIZE: nat := 99

  /** A string literal of the source as bytes; all of them are ASCII. */
  function Ascii(s: string): Bytes {
    seq(|s|, i requires 0 <= i < |s| => if s[i] < 128 as char then s[i] as int else 0)
  }

  /** The entry at an index, None past the end. */
  function Get(index: nat): Option<(Bytes, Bytes)> {
    if index >= SIZE then None
    else
      var (name, value) := Predefined(index);
      Some((Ascii(name), Ascii(value)))
  }

  function Predefined(index: nat): (string, string) {
    if index < 12 then Predefined0(index)
    else if index < 24 then Predefined12(index)
    else if index < 36 then Predefined24(index)
    else if index < 48 then Predefined36(index)
    else if index < 60 then Predefined48(index)
    else if index < 72 then Predefined60(index)
    else if index < 84 then Predefined72(index)
    else if index < 96 then Predefined84(index)
    else Predefined96(index)
  }

  /** The index of an entry with this name and value: the first of the alternatives that matches. */
  function Find(name: Bytes, value: Bytes): Option<nat> {
    if Find0(name, value).Some? then Find0(name, value)
    else if Find12(name, value).Some? then Find12(name, value)
    else if Find24(name, value).Some? then Find24(name, value)
    else if Find36(name, value).Some? then Find36(name, value)
    else if Find48(name, value).Some? then Find48(name, value)
    else if Find60(name, value).Some? then Find60(name, value)
    else if Find72(name, value).Some? then Find72(name, value)
    else if Find84(name, value).Some? then Find84(name, value)
    else Find96(name, value)
  }

  /** The index of the first entry with this name. */
  function FindName(name: Bytes): Option<nat> {
    if FindName0(name).Some? then FindName0(name)
    else if FindName8(name).Some? then FindName8(name)
    else if FindName29(name).Some? then FindName29(name)
    else if FindName55(name).Some? then FindName55(name)
    else if FindName80(name).Some? then FindName80(name)
    else FindName90(name)
  }

  function Predefined0(index: nat): (string, string) {
    match index
    case 0 => (":authority", "")
    case 1 => (":path", "/")
    case 2 => ("age", "0")
    case 3 => ("content-disposition", "")
    case 4 => ("content-length", "0")
    case 5 => ("cookie", "")
    case 6 => ("date", "")
    case 7 => ("etag", "")
    case 8 => ("if-modified-since", "")
    case 9 => ("if-none-match", "")
    case 10 => ("last-modified", "")
    case _ => ("link", "")
  }

  function Find0(name: Bytes, value: Bytes): Option<nat> {
    if name == Ascii(":authority") && value == Ascii("") then Some(0)
    else if name == Ascii(":path") && value == Ascii("/") then Some(1)
    else if name == Ascii("age") && value == Ascii("0") then Some(2)
    else if name == Ascii("content-disposition") && value == Ascii("") then Some(3)
    else if name == Ascii("content-length") && value == Ascii("0") then Some(4)
    else if name == Ascii("cookie") && value == Ascii("") then Some(5)
    else if name == Ascii("date") && value == Ascii("") then Some(6)
    else if name == Ascii("etag") && value == Ascii("") then Some(7)
    else if name == Ascii("if-modified-since") && value == Ascii("") then Some(8)
    else if name == Ascii("if-none-match") && value == Ascii("") then Some(9)
    else if name == Ascii("last-modified") && value == Ascii("") then Some(10)
    else if name == Ascii("link") && value == Ascii("") then Some(11)
    else None
  }

  lemma Agrees0(name: Bytes, value: Bytes, i: nat)
    requires 0 <= i < 12
    ensures Find0(name, value) == Some(i) ==> Get(i) == Some((name, value))
    ensures Get(i) == Some((name, value)) ==> Find0(name, value).Some?
    ensures Find0(name, value).Some? ==> 0 <= Find0(name, value).value < 12
  {
    hide Ascii;
  }

  function Predefined12(index: nat): (string, string) {
    match index
    case 12 => ("location", "")
    case 13 => ("referer", "")
    case 14 => ("set-cookie", "")
    case 15 => (":method", "CONNECT")
    case 16 => (":method", "DELETE")
    case 17 => (":method", "GET")
    case 18 => (":method", "HEAD")
    case 19 => (":method", "OPTIONS")
    case 20 => (":method", "POST")
    case 21 => (":method", "PUT")
    case 22 => (":scheme", "http")
    case _ => (":scheme", "https")
  }

  function Find12(name: Bytes, value: Bytes): Option<nat> {
    if name == Ascii("location") && value == Ascii("") then Some(12)
    else if name == Ascii("referer") && value == Ascii("") then Some(13)
    else if name == Ascii("set-cookie") && value == Ascii("") then Some(14)
    else if name == Ascii(":method") && value == Ascii("CONNECT") then Some(15)
    else if name == Ascii(":method") && value == Ascii("DELETE") then Some(16)
    else if name == Ascii(":method") && value == Ascii("GET") then Some(17)
    else if name == Ascii(":method") && value == Ascii("HEAD") then Some(18)
    else if name == Ascii(":method") && value == Ascii("OPTIONS") then Some(19)
    else if name == Ascii(":method") && value == Ascii("POST") then Some(20)
    else if name == Ascii(":method") && value == Ascii("PUT") then Some(21)
    else if name == Ascii(":scheme") && value == Ascii("http") then Some(22)
    else if name == Ascii(":scheme") && value == Ascii("https") then Some(23)
    else None
  }

  lemma Agrees12(name: Bytes, value: Bytes, i: nat)
    requires 12 <= i < 24
    ensures Find12(name, value) == Some(i) ==> Get(i) == Some((name, value))
    ensures Get(i) == Some((name, value)) ==> Find12(name, value).Some?
    ensures Find12(name, value).Some? ==> 12 <= Find12(name, value).value < 24
  {
    hide Ascii;
  }

  function Predefined24(index: nat): (string, string) {
    match index
    case 24 => (":status", "103")
    case 25 => (":status", "200")
    case 26 => (":status", "304")
    case 27 => (":status", "404")
    case 28 => (":status", "503")
    case 29 => ("accept", "*/*")
    case 30 => ("accept", "application/dns-message")
    case 31 => ("accept-encoding", "gzip, deflate, br")
    case 32 => ("accept-ranges", "bytes")
    case 33 => ("access-control-allow-headers", "cache-control")
    case 34 => ("access-control-allow-headers", "content-type")
    case _ => ("access-control-allow-origin", "*")
  }

  function Find24(name: Bytes, value: Bytes): Option<nat> {
    if name == Ascii(":status") && value == Ascii("103") then Some(24)
    else if name == Ascii(":status") && value == Ascii("200") then Some(25)
    else if name == Ascii(":status") && value == Ascii("304") then Some(26)
    else if name == Ascii(":status") && value == Ascii("404") then Some(27)
    else if name == Ascii(":status") && value == Ascii("503") then Some(28)
    else if name == Ascii("accept") && value == Ascii("*/*") then Some(29)
    else if name == Ascii("accept") && value == Ascii("application/dns-message") then Some(30)
    else if name == Ascii("accept-encoding") && value == Ascii("gzip, deflate, br") then Some(31)
    else if name == Ascii("accept-ranges") && value == Ascii("bytes") then Some(32)
    else if name == Ascii("access-control-allow-headers") && value == Ascii("cache-control") then Some(33)
    else if name == Ascii("access-control-allow-headers") && value == Ascii("content-type") then Some(34)
    else if name == Ascii("access-control-allow-origin") && value == Ascii("*") then Some(35)
    else None
  }

  lemma Agrees24(name: Bytes, value: Bytes, i: nat)
    requires 24 <= i < 36
    ensures Find24(name, value) == Some(i) ==> Get(i) == Some((name, value))
    ensures Get(i) == Some((name, value)) ==> Find24(name, value).Some?
    ensures Find24(name, value).Some? ==> 24 <= Find24(name, value).value < 36
  {
    hide Ascii;
  }

  function Predefined36(index: nat): (string, string) {
    match index
    case 36 => ("cache-control", "max-age=0")
    case 37 => ("cache-control", "max-age=2592000")
    case 38 => ("cache-control", "max-age=604800")
    case 39 => ("cache-control", "no-cache")
    case 40 => ("cache-control", "no-store")
    case 41 => ("cache-control", "public, max-age=31536000")
    case 42 => ("content-encoding", "br")
    case 43 => ("content-encoding", "gzip")
    case 44 => ("content-type", "application/dns-message")
    case 45 => ("content-type", "application/javascript")
    case 46 => ("content-type", "application/json")
    case _ => ("content-type", "application/x-www-form-urlencoded")
  }

  function Find36(name: Bytes, value: Bytes): Option<nat> {
    if name == Ascii("cache-control") && value == Ascii("max-age=0") then Some(36)
    else if name == Ascii("cache-control") && value == Ascii("max-age=2592000") then Some(37)
    else if name == Ascii("cache-control") && value == Ascii("max-age=604800") then Some(38)
    else if name == Ascii("cache-control") && value == Ascii("no-cache") then Some(39)
    else if name == Ascii("cache-control") && value == Ascii("no-store") then Some(40)
    else if name == Ascii("cache-control") && value == Ascii("public, max-age=31536000") then Some(41)
    else if name == Ascii("content-encoding") && value == Ascii("br") then Some(42)
    else if name == Ascii("content-encoding") && value == Ascii("gzip") then Some(43)
    else if name == Ascii("content-type") && value == Ascii("application/dns-message") then Some(44)
    else if name == Ascii("content-type") && value == Ascii("application/javascript") then Some(45)
    else if name == Ascii("content-type") && value == Ascii("application/json") then Some(46)
    else if name == Ascii("content-type") && value == Ascii("application/x-www-form-urlencoded") then Some(47)
    else None
  }

  lemma Agrees36(name: Bytes, value: Bytes, i: nat)
    requires 36 <= i < 48
    ensures Find36(name, value) == Some(i) ==> Get(i) == Some((name, value))
    ensures Get(i) == Some((name, value)) ==> Find36(name, value).Some?
    ensures Find36(name, value).Some? ==> 36 <= Find36(name, value).value < 48
  {
    hide Ascii;
  }

  function Predefined48(index: nat): (string, string) {
    match index
    case 48 => ("content-type", "image/gif")
    case 49 => ("content-type", "image/jpeg")
    case 50 => ("content-type", "image/png")
    case 51 => ("content-type", "text/css")
    case 52 => ("content-type", "text/html; charset=utf-8")
    case 53 => ("content-type", "text/plain")
    case 54 => ("content-type", "text/plain;charset=utf-8")
    case 55 => ("range", "bytes=0-")
    case 56 => ("strict-transport-security", "max-age=31536000")
    case 57 => ("strict-transport-security", "max-age=31536000; includesubdomains")
    case 58 => ("strict-transport-security", "max-age=31536000; includesubdomains; preload")
    case _ => ("vary", "accept-encoding")
  }

  function Find48(name: Bytes, value: Bytes): Option<nat> {
    if name == Ascii("content-type") && value == Ascii("image/gif") then Some(48)
    else if name == Ascii("content-type") && value == Ascii("image/jpeg") then Some(49)
    else if name == Ascii("content-type") && value == Ascii("image/png") then Some(50)
    else if name == Ascii("content-type") && value == Ascii("text/css") then Some(51)
    else if name == Ascii("content-type") && value == Ascii("text/html; charset=utf-8") then Some(52)
    else if name == Ascii("content-type") && value == Ascii("text/plain") then Some(53)
    else if name == Ascii("content-type") && value == Ascii("text/plain;charset=utf-8") then Some(54)
    else if name == Ascii("range") && value == Ascii("bytes=0-") then Some(55)
    else if name == Ascii("strict-transport-security") && value == Ascii("max-age=31536000") then Some(56)
    else if name == Ascii("strict-transport-security") && value == Ascii("max-age=31536000; includesubdomains") then Some(57)
    else if name == Ascii("strict-transport-security") && value == Ascii("max-age=31536000; includesubdomains; preload") then Some(58)
    else if name == Ascii("vary") && value == Ascii("accept-encoding") then Some(59)
    else None
  }

  lemma Agrees48(name: Bytes, value: Bytes, i: nat)
    requires 48 <= i < 60
    ensures Find48(name, value) == Some(i) ==> Get(i) == Some((name, value))
    ensures Get(i) == Some((name, value)) ==> Find48(name, value).Some?
    ensures Find48(name, value).Some? ==> 48 <= Find48(name, value).value < 60
  {
    hide Ascii;
  }

  function Predefined60(index: nat): (string, string) {
    match index
    case 60 => ("vary", "origin")
    case 61 => ("x-content-type-options", "nosniff")
    case 62 => ("x-xss-protection", "1; mode=block")
    case 63 => (":status", "100")
    case 64 => (":status", "204")
    case 65 => (":status", "206")
    case 66 => (":status", "302")
    case 67 => (":status", "400")
    case 68 => (":status", "403")
    case 69 => (":status", "421")
    case 70 => (":status", "425")
    case _ => (":status", "500")
  }

  function Find60(name: Bytes, value: Bytes): Option<nat> {
    if name == Ascii("vary") && value == Ascii("origin") then Some(60)
    else if name == Ascii("x-content-type-options") && value == Ascii("nosniff") then Some(61)
    else if name == Ascii("x-xss-protection") && value == Ascii("1; mode=block") then Some(62)
    else if name == Ascii(":status") && value == Ascii("100") then Some(63)
    else if name == Ascii(":status") && value == Ascii("204") then Some(64)
    else if name == Ascii(":status") && value == Ascii("206") then Some(65)
    else if name == Ascii(":status") && value == Ascii("302") then Some(66)
    else if name == Ascii(":status") && value == Ascii("400") then Some(67)
    else if name == Ascii(":status") && value == Ascii("403") then Some(68)
    else if name == Ascii(":status") && value == Ascii("421") then Some(69)
    else if name == Ascii(":status") && value == Ascii("425") then Some(70)
    else if name == Ascii(":status") && value == Ascii("500") then Some(71)
    else None
  }

  lemma Agrees60(name: Bytes, value: Bytes, i: nat)
    requires 60 <= i < 72
    ensures Find60(name, value) == Some(i) ==> Get(i) == Some((name, value))
    ensures Get(i) == Some((name, value)) ==> Find60(name, value).Some?
    ensures Find60(name, value).Some? ==> 60 <= Find60(name, value).value < 72
  {
    hide Ascii;
  }

  function Predefined72(index: nat): (string, string) {
    match index
    case 72 => ("accept-language", "")
    case 73 => ("access-control-allow-credentials", "FALSE")
    case 74 => ("access-control-allow-credentials", "TRUE")
    case 75 => ("access-control-allow-headers", "*")
    case 76 => ("access-control-allow-methods", "get")
    case 77 => ("access-control-allow-methods", "get, post, options")
    case 78 => ("access-control-allow-methods", "options")
    case 79 => ("access-control-expose-headers", "content-length")
    case 80 => ("access-control-request-headers", "content-type")
    case 81 => ("access-control-request-method", "get")
    case 82 => ("access-control-request-method", "post")
    case _ => ("alt-svc", "clear")
  }

  function Find72(name: Bytes, value: Bytes): Option<nat> {
    if name == Ascii("accept-language") && value == Ascii("") then Some(72)
    else if name == Ascii("access-control-allow-credentials") && value == Ascii("FALSE") then Some(73)
    else if name == Ascii("access-control-allow-credentials") && value == Ascii("TRUE") then Some(74)
    else if name == Ascii("access-control-allow-headers") && value == Ascii("*") then Some(75)
    else if name == Ascii("access-control-allow-methods") && value == Ascii("get") then Some(76)
    else if name == Ascii("access-control-allow-methods") && value == Ascii("get, post, options") then Some(77)
    else if name == Ascii("access-control-allow-methods") && value == Ascii("options") then Some(78)
    else if name == Ascii("access-control-expose-headers") && value == Ascii("content-length") then Some(79)
    else if name == Ascii("access-control-request-headers") && value == Ascii("content-type") then Some(80)
    else if name == Ascii("access-control-request-method") && value == Ascii("get") then Some(81)
    else if name == Ascii("access-control-request-method") && value == Ascii("post") then Some(82)
    else if name == Ascii("alt-svc") && value == Ascii("clear") then Some(83)
    else None
  }

  lemma Agrees72(name: Bytes, value: Bytes, i: nat)
    requires 72 <= i < 84
    ensures Find72(name, value) == Some(i) ==> Get(i) == Some((name, value))
    ensures Get(i) == Some((name, value)) ==> Find72(name, value).Some?
    ensures Find72(name, value).Some? ==> 72 <= Find72(name, value).value < 84
  {
    hide Ascii;
  }

  function Predefined84(index: nat): (string, string) {
    match index
    case 84 => ("authorization", "")
    case 85 => ("content-security-policy", "script-src 'none'; object-src 'none'; base-uri 'none'")
    case 86 => ("early-data", "1")
    case 87 => ("expect-ct", "")
    case 88 => ("forwarded", "")
    case 89 => ("if-range", "")
    case 90 => ("origin", "")
    case 91 => ("purpose", "prefetch")
    case 92 => ("server", "")
    case 93 => ("timing-allow-origin", "*")
    case 94 => ("upgrade-insecure-requests", "1")
    case _ => ("user-agent", "")
  }

  function Find84(name: Bytes, value: Bytes): Option<nat> {
    if name == Ascii("authorization") && value == Ascii("") then Some(84)
    else if name == Ascii("content-security-policy") && value == Ascii("script-src 'none'; object-src 'none'; base-uri 'none'") then Some(85)
    else if name == Ascii("early-data") && value == Ascii("1") then Some(86)
    else if name == Ascii("expect-ct") && value == Ascii("") then Some(87)
    else if name == Ascii("forwarded") && value == Ascii("") then Some(88)
    else if name == Ascii("if-range") && value == Ascii("") then Some(89)
    else if name == Ascii("origin") && value == Ascii("") then Some(90)
    else if name == Ascii("purpose") && value == Ascii("prefetch") then Some(91)
    else if name == Ascii("server") && value == Ascii("") then Some(92)
    else if name == Ascii("timing-allow-origin") && value == Ascii("*") then Some(93)
    else if name == Ascii("upgrade-insecure-requests") && value == Ascii("1") then Some(94)
    else if name == Ascii("user-agent") && value == Ascii("") then Some(95)
    else None
  }

  lemma Agrees84(name: Bytes, value: Bytes, i: nat)
    requires 84 <= i < 96
    ensures Find84(name, value) == Some(i) ==> Get(i) == Some((name, value))
    ensures Get(i) == Some((name, value)) ==> Find84(name, value).Some?
    ensures Find84(name, value).Some? ==> 84 <= Find84(name, value).value < 96
  {
    hide Ascii;
  }

  function Predefined96(index: nat): (string, string) {
    match index
    case 96 => ("x-forwarded-for", "")
    case 97 => ("x-frame-options", "deny")
    case _ => ("x-frame-options", "sameorigin")
  }

  function Find96(name: Bytes, value: Bytes): Option<nat> {
    if name == Ascii("x-forwarded-for") && value == Ascii("") then Some(96)
    else if name == Ascii("x-frame-options") && value == Ascii("deny") then Some(97)
    else if name == Ascii("x-frame-options") && value == Ascii("sameorigin") then Some(98)
    else None
  }

  lemma Agrees96(name: Bytes, value: Bytes, i: nat)
    requires 96 <= i < 99
    ensures Find96(name, value) == Some(i) ==> Get(i) == Some((name, value))
    ensures Get(i) == Some((name, value)) ==> Find96(name, value).Some?
    ensures Find96(name, value).Some? ==> 96 <= Find96(name, value).value < 99
  {
    hide Ascii;
  }

  function FindName0(name: Bytes): Option<nat> {
    if name == Ascii(":authority") then Some(0)
    else if name == Ascii(":path") then Some(1)
    else if name == Ascii("age") then Some(2)
    else if name == Ascii("content-disposition") then Some(3)
    else if name == Ascii("content-length") then Some(4)
    else if name == Ascii("cookie") then Some(5)
    else if name == Ascii("date") then Some(6)
    else if name == Ascii("etag") then Some(7)
    else None
  }

  lemma NameAgrees0(name: Bytes)
    ensures var r := FindName0(name); r.Some? ==> Get(r.value).Some? && Get(r.value).value.0 == name
  {
    hide Ascii;
  }

  function FindName8(name: Bytes): Option<nat> {
    if name == Ascii("if-modified-since") then Some(8)
    else if name == Ascii("if-none-match") then Some(9)
    else if name == Ascii("last-modified") then Some(10)
    else if name == Ascii("link") then Some(11)
    else if name == Ascii("location") then Some(12)
    else if name == Ascii("referer") then Some(13)
    else if name == Ascii("set-cookie") then Some(14)
    else if name == Ascii(":method") then Some(15)
    else if name == Ascii(":scheme") then Some(22)
    else if name == Ascii(":status") then Some(24)
    else None
  }

  lemma NameAgrees8(name: Bytes)
    ensures var r := FindName8(name); r.Some? ==> Get(r.value).Some? && Get(r.value).value.0 == name
  {
    hide Ascii;
  }

  function FindName29(name: Bytes): Option<nat> {
    if name == Ascii("accept") then Some(29)
    else if name == Ascii("accept-encoding") then Some(31)
    else if name == Ascii("accept-ranges") then Some(32)
    else if name == Ascii("access-control-allow-headers") then Some(33)
    else if name == Ascii("access-control-allow-origin") then Some(35)
    else if name == Ascii("cache-control") then Some(36)
    else if name == Ascii("content-encoding") then Some(42)
    else if name == Ascii("content-type") then Some(44)
    else None
  }

  lemma NameAgrees29(name: Bytes)
    ensures var r := FindName29(name); r.Some? ==> Get(r.value).Some? && Get(r.value).value.0 == name
  {
    hide Ascii;
  }

  function FindName55(name: Bytes): Option<nat> {
    if name == Ascii("range") then Some(55)
    else if name == Ascii("strict-transport-security") then Some(56)
    else if name == Ascii("vary") then Some(59)
    else if name == Ascii("x-content-type-options") then Some(61)
    else if name == Ascii("x-xss-protection") then Some(62)
    else if name == Ascii("accept-language") then Some(72)
    else if name == Ascii("access-control-allow-credentials") then Some(73)
    else if name == Ascii("access-control-allow-methods") then Some(76)
    else if name == Ascii("access-control-expose-headers") then Some(79)
    else None
  }

  lemma NameAgrees55(name: Bytes)
    ensures var r := FindName55(name); r.Some? ==> Get(r.value).Some? && Get(r.value).value.0 == name
  {
    hide Ascii;
  }

  function FindName80(name: Bytes): Option<nat> {
    if name == Ascii("access-control-request-headers") then Some(80)
    else if name == Ascii("access-control-request-method") then Some(81)
    else if name == Ascii("alt-svc") then Some(83)
    else if name == Ascii("authorization") then Some(84)
    else if name == Ascii("content-security-policy") then Some(85)
    else if name == Ascii("early-data") then Some(86)
    else if name == Ascii("expect-ct") then Some(87)
    else if name == Ascii("forwarded") then Some(88)
    else if name == Ascii("if-range") then Some(89)
    else None
  }

  lemma NameAgrees80(name: Bytes)
    ensures var r := FindName80(name); r.Some? ==> Get(r.value).Some? && Get(r.value).value.0 == name
  {
    hide Ascii;
  }

  function FindName90(name: Bytes): Option<nat> {
    if name == Ascii("origin") then Some(90)
    else if name == Ascii("purpose") then Some(91)
    else if name == Ascii("server") then Some(92)
    else if name == Ascii("timing-allow-origin") then Some(93)
    else if name == Ascii("upgrade-insecure-requests") then Some(94)
    else if name == Ascii("user-agent") then Some(95)
    else if name == Ascii("x-forwarded-for") then Some(96)
    else if name == Ascii("x-frame-options") then Some(97)
    else None
  }

  lemma NameAgrees90(name: Bytes)
    ensures var r := FindName90(name); r.Some? ==> Get(r.value).Some? && Get(r.value).value.0 == name
  {
    hide Ascii;
  }

  lemma FirstNames(name: Bytes)
    ensures FindName0(name).Some? ==> FindName0(name).value < 8
    ensures FindName8(name).Some? ==> FindName8(name).value < 29
    ensures FindName29(name).Some? ==> FindName29(name).value < 55
    ensures FindName55(name).Some? ==> FindName55(name).value < 80
  {
    hide Ascii;
  }

  lemma NameKnown0(i: nat)
    requires 0 <= i < 6
    ensures FindName(Get(i).value.0).Some? && FindName(Get(i).value.0).value <= i
  {
    hide Ascii;
  }

  lemma NameKnown6(i: nat)
    requires 6 <= i < 12
    ensures FindName(Get(i).value.0).Some? && FindName(Get(i).value.0).value <= i
  {
    hide Ascii;
  }

  lemma NameKnown12(i: nat)
    requires 12 <= i < 18
    ensures FindName(Get(i).value.0).Some? && FindName(Get(i).value.0).value <= i
  {
    hide Ascii;
  }

  lemma NameKnown18(i: nat)
    requires 18 <= i < 24
    ensures FindName(Get(i).value.0).Some? && FindName(Get(i).value.0).value <= i
  {
    hide Ascii;
  }

  lemma NameKnown24(i: nat)
    requires 24 <= i < 30
    ensures FindName(Get(i).value.0).Some? && FindName(Get(i).value.0).value <= i
  {
    hide Ascii;
  }

  lemma NameKnown30(i: nat)
    requires 30 <= i < 36
    ensures FindName(Get(i).value.0).Some? && FindName(Get(i).value.0).value <= i
  {
    hide Ascii;
  }

  lemma NameKnown36(i: nat)
    requires 36 <= i < 42
    ensures FindName(Get(i).value.0).Some? && FindName(Get(i).value.0).value <= i
  {
    hide Ascii;
  }

  lemma NameKnown42(i: nat)
    requires 42 <= i < 48
    ensures FindName(Get(i).value.0).Some? && FindName(Get(i).value.0).value <= i
  {
    hide Ascii;
  }

  lemma NameKnown48(i: nat)
    requires 48 <= i < 54
    ensures FindName(Get(i).value.0).Some? && FindName(Get(i).value.0).value <= i
  {
    hide Ascii;
  }

  lemma NameKnown54(i: nat)
    requires 54 <= i < 60
    ensures FindName(Get(i).value.0).Some? && FindName(Get(i).value.0).value <= i
  {
    hide Ascii;
  }

  lemma NameKnown60(i: nat)
    requires 60 <= i < 66
    ensures FindName(Get(i).value.0).Some? && FindName(Get(i).value.0).value <= i
  {
    hide Ascii;
  }

  lemma NameKnown66(i: nat)
    requires 66 <= i < 72
    ensures FindName(Get(i).value.0).Some? && FindName(Get(i).value.0).value <= i
  {
    hide Ascii;
  }

  lemma NameKnown72(i: nat)
    requires 72 <= i < 78
    ensures FindName(Get(i).value.0).Some? && FindName(Get(i).value.0).value <= i
  {
    hide Ascii, FindName0, FindName8;
    FirstNames(Get(i).value.0);
  }

  lemma NameKnown78(i: nat)
    requires 78 <= i < 84
    ensures FindName(Get(i).value.0).Some? && FindName(Get(i).value.0).value <= i
  {
    hide Ascii, FindName0, FindName8, FindName29;
    FirstNames(Get(i).value.0);
  }

  lemma NameKnown84(i: nat)
    requires 84 <= i < 90
    ensures FindName(Get(i).value.0).Some? && FindName(Get(i).value.0).value <= i
  {
    hide Ascii, FindName0, FindName8, FindName29, FindName55;
    FirstNames(Get(i).value.0);
  }

  lemma NameKnown90(i: nat)
    requires 90 <= i < 96
    ensures FindName(Get(i).value.0).Some? && FindName(Get(i).value.0).value <= i
  {
    hide Ascii, FindName0, FindName8, FindName29, FindName55;
    FirstNames(Get(i).value.0);
  }

  lemma NameKnown96(i: nat)
    requires 96 <= i < 99
    ensures FindName(Get(i).value.0).Some? && FindName(Get(i).value.0).value <= i
  {
    hide Ascii, FindName0, FindName8, FindName29, FindName55;
    FirstNames(Get(i).value.0);
  }

  /** A lookup by name and value finds an entry that has them, and finds one if the table has one. */
  lemma FindAgrees(name: Bytes, value: Bytes)
    ensures Find(name, value).Some? ==> Get(Find(name, value).value) == Some((name, value))
    ensures Find(name, value).None? ==> forall i: nat :: Get(i) != Some((name, value))
  {
    hide Get, Find0, Find12, Find24, Find36, Find48, Find60, Find72, Find84, Find96;
    var r := Find(name, value);
    if r.Some? { AgreesAt(name, value, r.value); }
    forall i: nat | r.None? ensures Get(i) != Some((name, value)) {
      AgreesAt(name, value, i);
    }
  }

  lemma AgreesAt(name: Bytes, value: Bytes, i: nat)
    ensures Find(name, value) == Some(i) ==> Get(i) == Some((name, value))
    ensures Find(name, value).None? ==> Get(i) != Some((name, value))
  {
    assert i >= SIZE ==> Get(i).None?;
    hide Get, Find0, Find12, Find24, Find36, Find48, Find60, Find72, Find84, Find96;
    Ranges(name, value);
    if i < 12 { Agrees0(name, value, i); }
    else if i < 24 { Agrees12(name, value, i); }
    else if i < 36 { Agrees24(name, value, i); }
    else if i < 48 { Agrees36(name, value, i); }
    else if i < 60 { Agrees48(name, value, i); }
    else if i < 72 { Agrees60(name, value, i); }
    else if i < 84 { Agrees72(name, value, i); }
    else if i < 96 { Agrees84(name, value, i); }
    else if i < 99 { Agrees96(name, value, i); }
  }

  lemma Ranges(name: Bytes, value: Bytes)
    ensures Find0(name, value).Some? ==> 0 <= Find0(name, value).value < 12
    ensures Find12(name, value).Some? ==> 12 <= Find12(name, value).value < 24
    ensures Find24(name, value).Some? ==> 24 <= Find24(name, value).value < 36
    ensures Find36(name, value).Some? ==> 36 <= Find36(name, value).value < 48
    ensures Find48(name, value).Some? ==> 48 <= Find48(name, value).value < 60
    ensures Find60(name, value).Some? ==> 60 <= Find60(name, value).value < 72
    ensures Find72(name, value).Some? ==> 72 <= Find72(name, value).value < 84
    ensures Find84(name, value).Some? ==> 84 <= Find84(name, value).value < 96
    ensures Find96(name, value).Some? ==> 96 <= Find96(name, value).value < 99
  {
    hide Get, Find0, Find12, Find24, Find36, Find48, Find60, Find72, Find84, Find96;
    Agrees0(name, value, 0);
    Agrees12(name, value, 12);
    Agrees24(name, value, 24);
    Agrees36(name, value, 36);
    Agrees48(name, value, 48);
    Agrees60(name, value, 60);
    Agrees72(name, value, 72);
    Agrees84(name, value, 84);
    Agrees96(name, value, 96);
  }

  /** A lookup by name finds the first entry with that name, and finds one if the table has one. */
  lemma FindNameAgrees(name: Bytes)
    ensures FindName(name).Some? ==> Get(FindName(name).value).Some? && Get(FindName(name).value).value.0 == name
    ensures FindName(name).None? ==> forall i: nat :: Get(i).Some? ==> Get(i).value.0 != name
    ensures FindName(name).Some? ==> forall i: nat :: Get(i).Some? && Get(i).value.0 == name ==> FindName(name).value <= i
  {
    assert forall i: nat :: Get(i).Some? ==> i < SIZE;
    hide Get, FindName0, FindName8, FindName29, FindName55, FindName80, FindName90;
    NameAgrees0(name);
    NameAgrees8(name);
    NameAgrees29(name);
    NameAgrees55(name);
    NameAgrees80(name);
    NameAgrees90(name);
    forall i: nat | Get(i).Some? && Get(i).value.0 == name ensures FindName(name).Some? && FindName(name).value <= i {
      NameKnown(i);
    }
  }

  lemma NameKnown(i: nat)
    requires i < SIZE
    ensures Get(i).Some? && FindName(Get(i).value.0).Some? && FindName(Get(i).value.0).value <= i
  {
    assert Get(i).Some?;
    hide Get, FindName;
    if i < 6 { NameKnown0(i); }
    else if i < 12 { NameKnown6(i); }
    else if i < 18 { NameKnown12(i); }
    else if i < 24 { NameKnown18(i); }
    else if i < 30 { NameKnown24(i); }
    else if i < 36 { NameKnown30(i); }
    else if i < 42 { NameKnown36(i); }
    else if i < 48 { NameKnown42(i); }
    else if i < 54 { NameKnown48(i); }
    else if i < 60 { NameKnown54(i); }
    else if i < 66 { NameKnown60(i); }
    else if i < 72 { NameKnown66(i); }
    else if i < 78 { NameKnown72(i); }
    else if i < 84 { NameKnown78(i); }
    else if i < 90 { NameKnown84(i); }
    else if i < 96 { NameKnown90(i); }
    else { NameKnown96(i); }
  }
}
