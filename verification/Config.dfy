/** A node's configuration and its text form, which serves as the id of its task. */
module Config {
  import opened Types
  import opened Text

  datatype Node = Node(
    name: string,
    host: string,
    rpcPort: nat,
    clientPort: nat,
    reseedPort: nat,
    kind: string,
    slave: string)

  function Parse(text: string): Option<Node> {
    var fs := Fields(text);
    if |fs| != 5 then None
    else
      match (ParseUint(fs[2]), ParseUint(fs[3]), ParseUint(fs[4]))
      case (Some(r), Some(c), Some(s)) => Some(Node(fs[0], fs[1], r, c, s, "", ""))
      case _ => None
  }

  function String(n: Node): string {
    n.name + " " + n.host + " " + Decimal(n.rpcPort) + " " + Decimal(n.clientPort) + " " + Decimal(n.reseedPort)
  }

  predicate PortsFit(n: Node) {
    n.rpcPort < TWO_64 && n.clientPort < TWO_64 && n.reseedPort < TWO_64
  }

  /** What the text form carries: all but the type and the slave. */
  predicate Recovers(text: string, n: Node) {
    Parse(text) == Some(n.(kind := "", slave := ""))
  }

  lemma OneMoreField(w: string, rest: string)
    requires Plain(w)
    ensures Fields(w + " " + rest) == [w] + Fields(rest)
  {
    FirstField(w, " " + rest);
    SpaceThenField(rest);
    assert w + " " + rest == w + (" " + rest);
  }

  lemma FieldsOfString(n: Node)
    requires Plain(n.name) && Plain(n.host)
    requires Plain(Decimal(n.rpcPort)) && Plain(Decimal(n.clientPort)) && Plain(Decimal(n.reseedPort))
    ensures Fields(String(n)) == [n.name, n.host, Decimal(n.rpcPort), Decimal(n.clientPort), Decimal(n.reseedPort)]
  {
    hide Fields, Decimal, Plain;
    var e := Decimal(n.reseedPort);
    var d := Decimal(n.clientPort) + " " + e;
    var c := Decimal(n.rpcPort) + " " + d;
    var b := n.host + " " + c;
    FieldsEnd(e);
    OneMoreField(Decimal(n.clientPort), e);
    OneMoreField(Decimal(n.rpcPort), d);
    OneMoreField(n.host, c);
    OneMoreField(n.name, b);
    assert String(n) == n.name + " " + b;
  }

  lemma FieldsEnd(w: string)
    requires Plain(w)
    ensures Fields(w) == [w]
  {
    FirstField(w, "");
    assert w + "" == w;
  }

  /** Parsing the text form gives the node back exactly when its name and host are not empty
      and contain no white space. */
  lemma RoundTripExactly(n: Node)
    requires PortsFit(n)
    ensures Recovers(String(n), n) <==> Plain(n.name) && Plain(n.host)
  {
    if Plain(n.name) && Plain(n.host) {
      ParseUintRoundTrip(n.rpcPort);
      ParseUintRoundTrip(n.clientPort);
      ParseUintRoundTrip(n.reseedPort);
      FieldsOfString(n);
    } else if Recovers(String(n), n) {
      FieldsArePlain(String(n));
      assert false;
    }
  }

  /** A host name with a blank is lost. */
  lemma BlankHostIsLost()
    ensures !Recovers(String(Node("etcd-1", "a b", 1, 2, 3, "new", "s")), Node("etcd-1", "a b", 1, 2, 3, "new", "s"))
  {
    RoundTripExactly(Node("etcd-1", "a b", 1, 2, 3, "new", "s"));
    assert "a b"[1] == ' ' && IsSpace(' ');
  }

  /** Different nodes have different task ids. */
  lemma TaskIdsDiffer(a: Node, b: Node)
    requires PortsFit(a) && PortsFit(b) && Plain(a.name) && Plain(a.host) && Plain(b.name) && Plain(b.host)
    requires String(a) == String(b)
    ensures a.(kind := "", slave := "") == b.(kind := "", slave := "")
  {
    RoundTripExactly(a);
    RoundTripExactly(b);
  }

  lemma ParsedNameIsPlain(text: string)
    requires Parse(text).Some?
    ensures Plain(Parse(text).value.name)
  {
    FieldsArePlain(text);
  }

  /** Whatever its host is: if the text form can be read at all, it gives the name back. */
  lemma ParseKeepsName(n: Node)
    requires Plain(n.name) && Parse(String(n)).Some?
    ensures Parse(String(n)).value.name == n.name
  {
    var rest := n.host + " " + Decimal(n.rpcPort) + " " + Decimal(n.clientPort) + " " + Decimal(n.reseedPort);
    OneMoreField(n.name, rest);
    assert String(n) == n.name + " " + rest;
  }

  // ---------------------------------------------------------------- instance names

  /** The name of the instance with a given number. */
  function NameOf(i: int): string {
    "etcd-" + FormatInt(i)
  }

  /** The number in a name of the form <word>-<number>. */
  function NameIndex(name: string): Option<int> {
    var parts := Split(name, '-');
    if |parts| != 2 then None else ParseInt(parts[1])
  }

  lemma NameIndexOf(i: nat)
    requires i <= MAX_INT
    ensures NameIndex(NameOf(i)) == Some(i)
  {
    SplitOnce("etcd", '-', Decimal(i));
    SplitNone(Decimal(i), '-');
    assert NameOf(i) == "etcd" + ['-'] + Decimal(i);
    DecimalRoundTrip(i);
    assert Decimal(i)[0] != '-' && Decimal(i)[0] != '+';
  }

  /** A negative number cannot be read back: its sign splits the name once more. */
  lemma NegativeHasNoIndex(i: int)
    requires i < 0
    ensures NameIndex(NameOf(i)) == None
  {
    SplitOnce("etcd", '-', "-" + Decimal(-i));
    SplitOnce("", '-', Decimal(-i));
    SplitNone(Decimal(-i), '-');
    assert NameOf(i) == "etcd" + ['-'] + ("-" + Decimal(-i));
    assert "-" + Decimal(-i) == "" + ['-'] + Decimal(-i);
  }

  /** Different numbers make different names. */
  lemma NamesDiffer(i: int, j: int)
    ensures NameOf(i) == NameOf(j) <==> i == j
  {
    if NameOf(i) == NameOf(j) {
      assert FormatInt(i) == NameOf(i)[5..] == NameOf(j)[5..] == FormatInt(j);
      var a, b := if i < 0 then -i else i, if j < 0 then -j else j;
      DecimalRoundTrip(a);
      DecimalRoundTrip(b);
      assert i < 0 ==> FormatInt(i)[0] == '-' && FormatInt(i)[1..] == Decimal(a);
      assert j < 0 ==> FormatInt(j)[0] == '-' && FormatInt(j)[1..] == Decimal(b);
    }
  }

  lemma NameIsPlain(i: int)
    ensures Plain(NameOf(i))
  {
    var s := NameOf(i);
    forall k | 0 <= k < |s| ensures !IsSpace(s[k]) {
      assert k >= 5 ==> s[k] == FormatInt(i)[k - 5];
      assert k < 5 ==> s[k] == "etcd-"[k];
    }
  }
}
