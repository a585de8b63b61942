/** The two textual encodings: the probe path and the consumer group ID. */
module Encodings {
  import opened Types

  /** `strings.Split` by one character. */
  function Split(s: string, separator: char): (parts: seq<string>)
    ensures |parts| > 0
  {
    if s == "" then [""]
    else
      var rest := Split(s[1..], separator);
      if s[0] == separator then [""] + rest else [[s[0]] + rest[0]] + rest[1..]
  }

  /** `strings.Join` by one character. */
  function Join(parts: seq<string>, separator: char): string
    requires |parts| > 0
  {
    if |parts| == 1 then parts[0] else parts[0] + [separator] + Join(parts[1..], separator)
  }

  /** Splitting loses nothing, and no part contains the separator. */
  lemma {:induction false} JoinSplit(s: string, separator: char)
    ensures Join(Split(s, separator), separator) == s
    ensures forall part :: part in Split(s, separator) ==> separator !in part
  {
    if s != "" {
      var rest := Split(s[1..], separator);
      JoinSplit(s[1..], separator);
      if s[0] == separator {
        assert Split(s, separator)[1..] == rest;
      } else {
        assert Split(s, separator)[1..] == rest[1..];
        assert s == [s[0]] + s[1..];
        assert rest[0] in rest;
        forall part | part in Split(s, separator) ensures separator !in part {
          if part != [s[0]] + rest[0] { assert part in rest; }
        }
      }
      assert s == [s[0]] + s[1..];
    }
  }

  /** Joining parts without the separator can be undone. */
  lemma {:induction false} SplitJoin(parts: seq<string>, separator: char)
    requires |parts| > 0 && forall part :: part in parts ==> separator !in part
    ensures Split(Join(parts, separator), separator) == parts
  {
    if |parts| == 1 {
      SplitClean(parts[0], separator);
    } else {
      assert forall part :: part in parts[1..] ==> part in parts;
      SplitJoin(parts[1..], separator);
      SplitAfter(parts[0], Join(parts[1..], separator), separator);
      assert parts == [parts[0]] + parts[1..];
    }
  }

  lemma {:induction false} SplitClean(s: string, separator: char)
    requires separator !in s
    ensures Split(s, separator) == [s]
  {
    if s != "" {
      SplitClean(s[1..], separator);
      assert s == [s[0]] + s[1..];
    }
  }

  lemma {:induction false} SplitAfter(first: string, rest: string, separator: char)
    requires separator !in first
    ensures Split(first + [separator] + rest, separator) == [first] + Split(rest, separator)
  {
    var s := first + [separator] + rest;
    if first == "" {
      assert s[1..] == rest;
    } else {
      assert s[1..] == first[1..] + [separator] + rest;
      SplitAfter(first[1..], rest, separator);
      assert [first[0]] + first[1..] == first;
    }
  }

  /**
   * The characters that a URL carries as they are: the unreserved ones of section 2.3 of RFC 3986, and
   * the slash that ends the authority and separates the segments of the path.
   */
  predicate PlainChar(c: char) {
    'a' <= c <= 'z' || 'A' <= c <= 'Z' || '0' <= c <= '9' || c == '-' || c == '.' || c == '_' || c == '~' || c == '/'
  }

  predicate PlainText(s: string) {
    forall c :: c in s ==> PlainChar(c)
  }

  const SCHEME := "http://"

  /** The URL a lister formats for a channel. */
  function ProbeURL(channel: ChannelRef): string {
    SCHEME + channel.name + "-dispatcher." + channel.namespace + "/" + channel.namespace + "/" + channel.name
  }

  /** What follows the authority of a URL; an empty path is requested as a slash. */
  function AfterAuthority(s: string): string {
    if s == "" then "/" else if s[0] == '/' then s else AfterAuthority(s[1..])
  }

  /** The request URI with which a plain URL arrives: nothing in it is cut off or escaped. */
  function RequestURI(url: string): string
    requires SCHEME <= url && PlainText(url[|SCHEME|..])
  {
    AfterAuthority(url[|SCHEME|..])
  }

  lemma {:induction false} AfterHost(host: string, path: string)
    requires '/' !in host
    ensures AfterAuthority(host + "/" + path) == "/" + path
  {
    var s := host + "/" + path;
    if host == "" {
      assert s == "/" + path;
    } else {
      assert s[1..] == host[1..] + "/" + path;
      AfterHost(host[1..], path);
    }
  }

  /** The channel a request URI names, if it has the expected shape. */
  function ChannelOfPath(uri: string): Option<ChannelRef> {
    var parts := Split(uri, '/');
    if |parts| != 3 then None else Some(ChannelRef(parts[1], parts[2]))
  }

  /** The URI is a part, a namespace and a name, separated by slashes. */
  ghost predicate Names(uri: string, channel: ChannelRef) {
    && '/' !in channel.namespace && '/' !in channel.name
    && exists first: string :: '/' !in first && uri == first + "/" + (channel.namespace + "/" + channel.name)
  }

  lemma ChannelOfPathExact(uri: string, channel: ChannelRef)
    ensures ChannelOfPath(uri) == Some(channel) <==> Names(uri, channel)
  {
    var parts := Split(uri, '/');
    JoinSplit(uri, '/');
    if ChannelOfPath(uri) == Some(channel) {
      assert parts == [parts[0], channel.namespace, channel.name];
      assert parts[0] in parts && parts[1] in parts && parts[2] in parts;
      JoinThree(parts[0], channel.namespace, channel.name);
    }
    if Names(uri, channel) {
      var first: string :| '/' !in first && uri == first + "/" + (channel.namespace + "/" + channel.name);
      JoinThree(first, channel.namespace, channel.name);
      SplitJoin([first, channel.namespace, channel.name], '/');
    }
  }

  /** A URI names a channel exactly when it has two slashes, and then only one. */
  lemma TwoSlashes(uri: string)
    ensures ChannelOfPath(uri).Some? <==> multiset(uri)['/'] == 2
    ensures forall channel :: Names(uri, channel) <==> ChannelOfPath(uri) == Some(channel)
  {
    PartsCount(uri, '/');
    forall channel ensures Names(uri, channel) <==> ChannelOfPath(uri) == Some(channel) {
      ChannelOfPathExact(uri, channel);
    }
  }

  lemma {:induction false} PartsCount(s: string, separator: char)
    ensures |Split(s, separator)| == multiset(s)[separator] + 1
  {
    if s != "" {
      PartsCount(s[1..], separator);
      assert s == [s[0]] + s[1..];
    }
  }

  /** The URL of a channel with plain names is plain. */
  lemma ProbeURLPlain(channel: ChannelRef)
    requires PlainText(channel.namespace) && PlainText(channel.name)
    ensures SCHEME <= ProbeURL(channel) && PlainText(ProbeURL(channel)[|SCHEME|..])
  {
    var host := channel.name + "-dispatcher." + channel.namespace;
    var rest := host + "/" + channel.namespace + "/" + channel.name;
    assert ProbeURL(channel) == SCHEME + rest;
    assert ProbeURL(channel)[|SCHEME|..] == rest;
  }

  /**
   * The endpoint recovers the channel from the request for its probe URL exactly when neither name has a
   * slash; the names are otherwise made of characters that URLs carry as they are.
   */
  lemma PathRoundTrip(channel: ChannelRef)
    requires PlainText(channel.namespace) && PlainText(channel.name)
    ensures SCHEME <= ProbeURL(channel) && PlainText(ProbeURL(channel)[|SCHEME|..])
    ensures ChannelOfPath(RequestURI(ProbeURL(channel))) == Some(channel)
            <==> '/' !in channel.namespace && '/' !in channel.name
  {
    ProbeURLPlain(channel);
    var uri := RequestURI(ProbeURL(channel));
    if '/' !in channel.namespace && '/' !in channel.name {
      var host, path := channel.name + "-dispatcher." + channel.namespace, channel.namespace + "/" + channel.name;
      assert ProbeURL(channel) == SCHEME + (host + "/" + path);
      assert ProbeURL(channel)[|SCHEME|..] == host + "/" + path;
      AfterHost(host, path);
      JoinThree("", channel.namespace, channel.name);
      SplitJoin(["", channel.namespace, channel.name], '/');
    }
    if ChannelOfPath(uri) == Some(channel) {
      JoinSplit(uri, '/');
      assert Split(uri, '/')[1] in Split(uri, '/') && Split(uri, '/')[2] in Split(uri, '/');
    }
  }

  lemma JoinThree(first: string, second: string, third: string)
    ensures Join([first, second, third], '/') == first + "/" + (second + "/" + third)
  {
    var parts := [first, second, third];
    assert parts[1..] == [second, third] && parts[1..][1..] == [third];
    assert Join(parts, '/') == first + ['/'] + Join([second, third], '/');
    assert Join([second, third], '/') == second + ['/'] + third;
  }

  /** The consumer group of a subscription. */
  function GroupId(channel: ChannelRef, uid: UID): string {
    "kafka." + channel.namespace + "." + channel.name + "." + uid
  }

  lemma {:induction false} SplitBefore(first: string, last: string, separator: char)
    requires separator !in last
    ensures Split(first + [separator] + last, separator) == Split(first, separator) + [last]
  {
    var s := first + [separator] + last;
    if first == "" {
      assert s[1..] == last;
      SplitClean(last, separator);
    } else {
      assert s[1..] == first[1..] + [separator] + last;
      SplitBefore(first[1..], last, separator);
    }
  }

  lemma FirstSeparator(a: string, b: string, x: string, y: string, separator: char)
    requires separator !in a && separator !in b
    requires a + [separator] + x == b + [separator] + y
    ensures a == b && x == y
  {
    var s := a + [separator] + x;
    SplitAfter(a, x, separator);
    SplitAfter(b, y, separator);
    assert Split(s, separator)[0] == a && Split(s, separator)[0] == b;
    assert x == s[|a| + 1..] && y == s[|b| + 1..];
  }

  lemma LastSeparator(x: string, y: string, a: string, b: string, separator: char)
    requires separator !in a && separator !in b
    requires x + [separator] + a == y + [separator] + b
    ensures x == y && a == b
  {
    var s := x + [separator] + a;
    SplitBefore(x, a, separator);
    SplitBefore(y, b, separator);
    assert Split(s, separator)[|Split(s, separator)| - 1] == a;
    assert Split(s, separator)[|Split(s, separator)| - 1] == b;
    assert x == s[..|s| - |a| - 1] && y == s[..|s| - |b| - 1];
  }

  /** For dot-free UIDs a group ID determines the UID, and the namespace and name up to where they meet. */
  lemma GroupIdParts(c: ChannelRef, u: UID, d: ChannelRef, v: UID)
    requires '.' !in u && '.' !in v
    ensures GroupId(c, u) == GroupId(d, v) <==>
            u == v && c.namespace + "." + c.name == d.namespace + "." + d.name
  {
    var x, y := c.namespace + "." + c.name, d.namespace + "." + d.name;
    assert GroupId(c, u) == "kafka." + (x + "." + u);
    assert GroupId(d, v) == "kafka." + (y + "." + v);
    assert x + "." + u == GroupId(c, u)[6..] && y + "." + v == GroupId(d, v)[6..];
    if GroupId(c, u) == GroupId(d, v) {
      LastSeparator(x, y, u, v, '.');
    }
  }

  /** With dot-free namespaces and UIDs, whatever the channel names, a group ID determines its parts. */
  lemma GroupIdInjective(c: ChannelRef, u: UID, d: ChannelRef, v: UID)
    requires '.' !in c.namespace && '.' !in d.namespace && '.' !in u && '.' !in v
    requires GroupId(c, u) == GroupId(d, v)
    ensures c == d && u == v
  {
    GroupIdParts(c, u, d, v);
    FirstSeparator(c.namespace, d.namespace, c.name, d.name, '.');
  }

  /**
   * Which namespaces can collide, exactly: for dot-free UIDs, channels of two different namespaces can
   * have a group ID in common if and only if the UIDs are the same and one namespace continues the other
   * after a dot. A Kubernetes namespace has no dot, so this never holds of two of them.
   */
  lemma NamespacesCollide(a: string, b: string, u: UID, v: UID)
    requires a != b && '.' !in u && '.' !in v
    ensures (exists n: string, m: string :: GroupId(ChannelRef(a, n), u) == GroupId(ChannelRef(b, m), v))
            <==> u == v && (a + "." <= b || b + "." <= a)
    ensures '.' !in a && '.' !in b ==> !(a + "." <= b) && !(b + "." <= a)
  {
    if n: string, m: string :| GroupId(ChannelRef(a, n), u) == GroupId(ChannelRef(b, m), v) {
      GroupIdParts(ChannelRef(a, n), u, ChannelRef(b, m), v);
      MeetingPrefixes(a, n, b, m);
    }
    if a + "." <= b {
      assert b[|a|] == '.';
      Continues(a, b);
      GroupIdParts(ChannelRef(a, b[|a| + 1..] + "."), u, ChannelRef(b, ""), v);
    }
    if b + "." <= a {
      assert a[|b|] == '.';
      Continues(b, a);
      GroupIdParts(ChannelRef(a, ""), u, ChannelRef(b, a[|b| + 1..] + "."), v);
    }
  }

  lemma MeetingPrefixes(a: string, n: string, b: string, m: string)
    requires a != b && a + "." + n == b + "." + m
    ensures a + "." <= b || b + "." <= a
  {
    var s := a + "." + n;
    assert a == s[..|a|] && s[|a|] == '.' && b == s[..|b|] && s[|b|] == '.';
    if |a| < |b| {
      assert a + "." == s[..|a| + 1] == b[..|a| + 1];
    } else if |b| < |a| {
      assert b + "." == s[..|b| + 1] == a[..|b| + 1];
    }
  }

  lemma Continues(a: string, b: string)
    requires a + "." <= b
    ensures a + "." + (b[|a| + 1..] + ".") == b + "." + ""
  {
    assert b == a + "." + b[|a| + 1..];
  }

  /**
   * Which UIDs can collide, exactly: channels of one namespace can have a group ID in common for two
   * different UIDs if and only if one UID ends with a dot and the other. Kubernetes UIDs have no dot.
   */
  lemma UidsCollide(a: string, u: UID, v: UID)
    requires u != v
    ensures (exists n: string, m: string :: GroupId(ChannelRef(a, n), u) == GroupId(ChannelRef(a, m), v))
            <==> EndsWith(u, "." + v) || EndsWith(v, "." + u)
    ensures '.' !in u && '.' !in v ==> !EndsWith(u, "." + v) && !EndsWith(v, "." + u)
  {
    if n: string, m: string :| GroupId(ChannelRef(a, n), u) == GroupId(ChannelRef(a, m), v) {
      NamesMeet(a, n, u, m, v);
      MeetingSuffixes(n, u, m, v);
    }
    if EndsWith(u, "." + v) {
      assert u[|u| - |v| - 1] == '.';
      var w := u[..|u| - |v| - 1];
      assert w + "." + v == u;
      NamesMeet(a, "", u, "." + w, v);
      assert "" + "." + u == "." + w + "." + v;
    }
    if EndsWith(v, "." + u) {
      assert v[|v| - |u| - 1] == '.';
      var w := v[..|v| - |u| - 1];
      assert w + "." + u == v;
      NamesMeet(a, "." + w, u, "", v);
      assert "." + w + "." + u == "" + "." + v;
    }
  }

  predicate EndsWith(s: string, suffix: string) {
    |suffix| <= |s| && s[|s| - |suffix|..] == suffix
  }

  lemma NamesMeet(a: string, n: string, u: UID, m: string, v: UID)
    ensures GroupId(ChannelRef(a, n), u) == GroupId(ChannelRef(a, m), v) <==> n + "." + u == m + "." + v
  {
    var x, y := n + "." + u, m + "." + v;
    assert GroupId(ChannelRef(a, n), u) == ("kafka." + a + ".") + x;
    assert GroupId(ChannelRef(a, m), v) == ("kafka." + a + ".") + y;
    assert x == GroupId(ChannelRef(a, n), u)[|a| + 7..] && y == GroupId(ChannelRef(a, m), v)[|a| + 7..];
  }

  lemma MeetingSuffixes(n: string, u: string, m: string, v: string)
    requires u != v && n + "." + u == m + "." + v
    ensures EndsWith(u, "." + v) || EndsWith(v, "." + u)
  {
    var s := n + "." + u;
    assert "." + u == s[|s| - |u| - 1..] && "." + v == s[|s| - |v| - 1..];
    assert u == s[|s| - |u|..] && v == s[|s| - |v|..];
    if |u| < |v| {
      assert v[|v| - |u| - 1..] == "." + u;
    } else if |v| < |u| {
      assert u[|u| - |v| - 1..] == "." + v;
    }
  }
}
