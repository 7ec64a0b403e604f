/** The two fixed dnsmasq directive templates, as parsed trees, with the
    part of Go's text/template that they use: text, `{{.ListenPort}}`,
    `{{if .Flag}} … {{else}} … {{end}}` on a bool field, and the `{{-`
    marker that trims the white space ending the text just before it. */
module Template {
  import opened Strings

  /** The values a template reads. EdgeOS's router has no SetPort0 field and
      its template does not read one. */
  datatype Data = Data(cacheEnabled: bool, setPort0: bool, clientReporting: bool, listenPort: string)

  /** The bool fields the templates branch on. */
  datatype Flag = CacheEnabled | SetPort0 | ClientReporting

  /** A parsed template node. `Text(raw, trimmed)` is a run of literal text
      as written; `trimmed` says that the action right after it opens with
      `{{-`. `PrintPort` is `{{.ListenPort}}`, the only field printed. */
  datatype Node =
    | Text(raw: string, trimmed: bool)
    | PrintPort
    | If(cond: Flag, thenBranch: seq<Node>, elseBranch: seq<Node>)

  /** White space as text/template's lexer trims it. */
  predicate IsSpace(c: char) {
    c == ' ' || c == '\t' || c == '\r' || c == '\n'
  }

  function TrimRight(s: string): (t: string)
    ensures t <= s
    ensures |t| > 0 ==> !IsSpace(t[|t| - 1])
    ensures forall i :: |t| <= i < |s| ==> IsSpace(s[i])
  {
    if |s| > 0 && IsSpace(s[|s| - 1]) then TrimRight(s[..|s| - 1]) else s
  }

  /** The value of a bool field, which `{{if}}` tests. */
  predicate Truth(f: Flag, d: Data) {
    match f
    case CacheEnabled => d.cacheEnabled
    case SetPort0 => d.setPort0
    case ClientReporting => d.clientReporting
  }

  function Execute(t: seq<Node>, d: Data): string
    decreases t
  {
    if |t| == 0 then ""
    else
      var head :=
        match t[0]
        case Text(raw, trimmed) => if trimmed then TrimRight(raw) else raw
        case PrintPort => d.listenPort
        case If(c, a, b) => if Truth(c, d) then Execute(a, d) else Execute(b, d);
      head + Execute(t[1..], d)
  }

  const NL := "\n"
  const Header := "# Configuration generated by NextDNS"
  const Handled := "# DNS is handled by NextDNS"
  const Port0 := "port=0"
  const NoResolv := "no-resolv"
  const ServerPrefix := "server=127.0.0.1#"
  const AddMac := "add-mac"
  const AddSubnet := "add-subnet=32,128"

  /** The delegate branch, shared by both templates. */
  const Delegate: seq<Node> := [
    Text(NL + NoResolv + NL + ServerPrefix, false),
    PrintPort,
    Text(NL, true),
    If(ClientReporting, [Text(NL + AddMac + NL + AddSubnet + NL, true)], []),
    Text(NL, true)
  ]

  /** OpenWrt's template. */
  const OpenWrt: seq<Node> := [
    Text(Header + NL, true),
    If(CacheEnabled,
       [ Text(NL + Handled + NL, true),
         If(SetPort0, [Text(NL + Port0 + NL, true)], []),
         Text(NL, true) ],
       Delegate),
    Text(NL, false)
  ]

  /** EdgeOS's template. */
  const EdgeOS: seq<Node> := [
    Text(Header + NL, true),
    If(CacheEnabled, [Text(NL + Handled + NL + Port0 + NL, true)], Delegate),
    Text(NL, false)
  ]

  /** A file holding `lines`, one per line, each ended by a newline. */
  function FileText(lines: seq<string>): string {
    Join(lines, '\n') + NL
  }

  /** The directives of the delegate branch. */
  function DelegateLines(d: Data): seq<string> {
    [NoResolv, ServerPrefix + d.listenPort]
      + (if d.clientReporting then [AddMac, AddSubnet] else [])
  }

  /** The directives OpenWrt's file is meant to hold. */
  function OpenWrtLines(d: Data): seq<string> {
    [Header] +
    if d.cacheEnabled then [Handled] + (if d.setPort0 then [Port0] else [])
    else DelegateLines(d)
  }

  /** The directives EdgeOS's file is meant to hold. */
  function EdgeOSLines(d: Data): seq<string> {
    [Header] + if d.cacheEnabled then [Handled, Port0] else DelegateLines(d)
  }

  /** The rendered OpenWrt file. */
  function RenderOpenWrt(d: Data): string {
    Execute(OpenWrt, d)
  }

  /** The rendered EdgeOS file. */
  function RenderEdgeOS(d: Data): string {
    Execute(EdgeOS, d)
  }

  /** `{{-` removes exactly the one newline that ends a directive. */
  lemma TrimNewline(s: string)
    requires |s| > 0 && !IsSpace(s[|s| - 1])
    ensures TrimRight(s + NL) == s
  {
    assert (s + NL)[..|s|] == s;
  }

  /** Each node of a sequence contributes its text in turn. */
  lemma ExecuteCons(n: Node, rest: seq<Node>, d: Data)
    ensures Execute([n] + rest, d) == Execute([n], d) + Execute(rest, d)
  {
    assert ([n] + rest)[1..] == rest;
    assert [n][1..] == [];
  }

  lemma ExecuteText(raw: string, trimmed: bool, d: Data)
    ensures Execute([Text(raw, trimmed)], d) == if trimmed then TrimRight(raw) else raw
  {
    assert [Text(raw, trimmed)][1..] == [];
  }

  lemma ExecuteIf(c: Flag, a: seq<Node>, b: seq<Node>, d: Data)
    ensures Execute([If(c, a, b)], d) == if Truth(c, d) then Execute(a, d) else Execute(b, d)
  {
    assert [If(c, a, b)][1..] == [];
  }

  lemma ExecuteThree(n0: Node, n1: Node, n2: Node, d: Data)
    ensures Execute([n0, n1, n2], d) == Execute([n0], d) + Execute([n1], d) + Execute([n2], d)
  {
    assert [n0, n1, n2] == [n0] + ([n1] + [n2]);
    ExecuteCons(n0, [n1] + [n2], d);
    ExecuteCons(n1, [n2], d);
  }

  /** Joining, written out for the few line counts the templates produce. */
  lemma JoinTwo(a: string, b: string)
    ensures Join([a, b], '\n') == a + NL + b
  {
    assert [a, b][1..] == [b];
  }

  lemma JoinFour(a: string, b: string, c: string, e: string)
    ensures Join([a, b, c, e], '\n') == a + NL + (b + NL + (c + NL + e))
  {
    assert [a, b, c, e][1..] == [b, c, e];
    assert [b, c, e][1..] == [c, e];
    JoinTwo(c, e);
  }

  /** A header line in front of a body that starts with a newline. */
  lemma HeaderThen(h: string, lines: seq<string>, body: string)
    requires |lines| > 0 && body == Join(lines, '\n')
    ensures h + (NL + body) + NL == FileText([h] + lines)
  {
    JoinCons(h, lines, '\n');
  }

  /** With client reporting, the delegate branch adds the two directives
      that pass the client's address on. */
  lemma ExecuteReporting(d: Data)
    ensures Execute(Delegate[3..], d) == if d.clientReporting then NL + AddMac + NL + AddSubnet else ""
  {
    var reporting := NL + AddMac + NL + AddSubnet;
    TrimNewline(reporting);
    assert TrimRight(NL) == TrimRight("");
    assert Delegate[3..] == [Delegate[3]] + [Delegate[4]];
    ExecuteCons(Delegate[3], [Delegate[4]], d);
    ExecuteText(NL, true, d);
    ExecuteIf(ClientReporting, [Text(reporting + NL, true)], [], d);
    ExecuteText(reporting + NL, true, d);
  }

  lemma ExecuteServer(d: Data)
    ensures Execute(Delegate[..3], d) == NL + NoResolv + NL + ServerPrefix + d.listenPort
  {
    assert Delegate[..3] == [Delegate[0], Delegate[1], Delegate[2]];
    ExecuteThree(Delegate[0], Delegate[1], Delegate[2], d);
    ExecuteText(NL + NoResolv + NL + ServerPrefix, false, d);
    ExecuteText(NL, true, d);
    assert TrimRight(NL) == TrimRight("");
    assert [Delegate[1]][1..] == [];
  }

  /** The delegate lines with the reporting pair, joined. */
  lemma FourLines(nr: string, server: string, e0: string, e1: string)
    ensures NL + nr + NL + server + (NL + e0 + NL + e1) == NL + Join([nr, server, e0, e1], '\n')
  {
    JoinFour(nr, server, e0, e1);
  }

  /** The delegate lines without the reporting pair, joined. */
  lemma TwoLines(nr: string, server: string)
    ensures NL + nr + NL + server == NL + Join([nr, server], '\n')
  {
    JoinTwo(nr, server);
  }

  /** Symbolic form of the delegate branch's text. */
  lemma DelegateShape(nr: string, sp: string, port: string, extra: seq<string>)
    requires |extra| == 0 || |extra| == 2
    ensures NL + nr + NL + sp + port + (if |extra| == 2 then NL + extra[0] + NL + extra[1] else "")
         == NL + Join([nr, sp + port] + extra, '\n')
  {
    var server := sp + port;
    assert NL + nr + NL + sp + port == NL + nr + NL + server;
    if |extra| == 2 {
      assert [nr, server] + extra == [nr, server, extra[0], extra[1]];
      FourLines(nr, server, extra[0], extra[1]);
    } else {
      assert [nr, server] + extra == [nr, server];
      TwoLines(nr, server);
    }
  }

  lemma {:induction false} ExecuteDelegate(d: Data)
    ensures Execute(Delegate, d) == NL + Join(DelegateLines(d), '\n')
  {
    assert Delegate == Delegate[..3] + Delegate[3..];
    ExecuteAppend(Delegate[..3], Delegate[3..], d);
    ExecuteServer(d);
    ExecuteReporting(d);
    DelegateShape(NoResolv, ServerPrefix, d.listenPort, if d.clientReporting then [AddMac, AddSubnet] else []);
  }

  lemma {:induction false} ExecuteAppend(a: seq<Node>, b: seq<Node>, d: Data)
    ensures Execute(a + b, d) == Execute(a, d) + Execute(b, d)
    decreases |a|
  {
    if |a| == 0 {
      assert a + b == b;
    } else {
      ExecuteAppend(a[1..], b, d);
      assert (a + b)[0] == a[0] && (a + b)[1..] == a[1..] + b;
      var head := Execute([a[0]], d);
      ExecuteCons(a[0], a[1..] + b, d);
      ExecuteCons(a[0], a[1..], d);
      assert [a[0]] + a[1..] == a;
      assert [a[0]] + (a[1..] + b) == a + b;
      Assoc(head, Execute(a[1..], d), Execute(b, d));
    }
  }

  /** Re-bracketing of concatenation. Dafny knows it, but proving the
      instance apart keeps `ExecuteAppend` within the solver's budget. */
  lemma Assoc(a: string, b: string, c: string)
    ensures a + (b + c) == a + b + c
  {
  }

  /** The file's first line and its final newline, around a branch. */
  lemma Frame(t: seq<Node>, body: string, d: Data)
    requires |t| == 3 && t[0] == Text(Header + NL, true) && t[2] == Text(NL, false)
    requires Execute([t[1]], d) == body
    ensures Execute(t, d) == Header + body + NL
  {
    assert t == [t[0], t[1], t[2]];
    ExecuteThree(t[0], t[1], t[2], d);
    TrimNewline(Header);
    ExecuteText(Header + NL, true, d);
    ExecuteText(NL, false, d);
  }

  /** `{{if .SetPort0}}` around one directive ending in a non-space. */
  lemma OptionalLine(p: string, d: Data)
    requires |p| > 0 && !IsSpace(p[|p| - 1])
    ensures Execute([If(SetPort0, [Text(NL + p + NL, true)], [])], d) == if d.setPort0 then NL + p else ""
  {
    var line := NL + p;
    assert line[|line| - 1] == p[|p| - 1];
    ExecuteIf(SetPort0, [Text(line + NL, true)], [], d);
    ExecuteText(line + NL, true, d);
    TrimNewline(line);
  }

  /** A line in front of an optional second line, joined. */
  lemma JoinOptional(h: string, p: string, present: bool)
    ensures NL + h + (if present then NL + p else "") + "" == NL + Join([h] + (if present then [p] else []), '\n')
  {
    if present {
      assert [h] + [p] == [h, p];
      JoinTwo(h, p);
    } else {
      assert [h] + [] == [h];
    }
  }

  /** A branch printing one directive and then, when SetPort0 is set, a
      second one; both end in a non-space. */
  lemma OptionalLineBranch(h: string, p: string, d: Data)
    requires |h| > 0 && !IsSpace(h[|h| - 1]) && |p| > 0 && !IsSpace(p[|p| - 1])
    ensures Execute([Text(NL + h + NL, true), If(SetPort0, [Text(NL + p + NL, true)], []), Text(NL, true)], d)
         == NL + Join([h] + (if d.setPort0 then [p] else []), '\n')
  {
    var first := NL + h;
    assert first[|first| - 1] == h[|h| - 1];
    ExecuteThree(Text(first + NL, true), If(SetPort0, [Text(NL + p + NL, true)], []), Text(NL, true), d);
    ExecuteText(first + NL, true, d);
    TrimNewline(first);
    OptionalLine(p, d);
    ExecuteText(NL, true, d);
    assert TrimRight(NL) == TrimRight("");
    JoinOptional(h, p, d.setPort0);
  }

  lemma OpenWrtCacheBranch(d: Data)
    requires d.cacheEnabled
    ensures Execute([OpenWrt[1]], d) == NL + Join([Handled] + (if d.setPort0 then [Port0] else []), '\n')
  {
    var branch := [Text(NL + Handled + NL, true), If(SetPort0, [Text(NL + Port0 + NL, true)], []), Text(NL, true)];
    assert OpenWrt[1] == If(CacheEnabled, branch, Delegate);
    ExecuteIf(CacheEnabled, branch, Delegate, d);
    assert Handled[|Handled| - 1] == 'S' && Port0[|Port0| - 1] == '0';
    OptionalLineBranch(Handled, Port0, d);
  }

  /** OpenWrt's template, with its `{{-` markers, writes each directive of
      OpenWrtLines on a line of its own and ends the file with one newline. */
  lemma {:induction false} OpenWrtRendersLines(d: Data)
    ensures RenderOpenWrt(d) == FileText(OpenWrtLines(d))
  {
    var rest := if d.cacheEnabled then [Handled] + (if d.setPort0 then [Port0] else []) else DelegateLines(d);
    if d.cacheEnabled {
      OpenWrtCacheBranch(d);
    } else {
      ExecuteDelegate(d);
      ExecuteIf(CacheEnabled, OpenWrt[1].thenBranch, Delegate, d);
    }
    Frame(OpenWrt, NL + Join(rest, '\n'), d);
    HeaderThen(Header, rest, Join(rest, '\n'));
  }

  /** A branch printing two directives, the second ending in a non-space. */
  lemma TwoLineBranch(h: string, p: string, d: Data)
    requires |p| > 0 && !IsSpace(p[|p| - 1])
    ensures Execute([Text(NL + h + NL + p + NL, true)], d) == NL + Join([h, p], '\n')
  {
    var c := NL + h + NL + p;
    assert c[|c| - 1] == p[|p| - 1];
    ExecuteText(c + NL, true, d);
    TrimNewline(c);
    JoinTwo(h, p);
  }

  lemma EdgeOSCacheBranch(d: Data)
    requires d.cacheEnabled
    ensures Execute([EdgeOS[1]], d) == NL + Join([Handled, Port0], '\n')
  {
    var branch := [Text(NL + Handled + NL + Port0 + NL, true)];
    assert EdgeOS[1] == If(CacheEnabled, branch, Delegate);
    ExecuteIf(CacheEnabled, branch, Delegate, d);
    assert Port0[|Port0| - 1] == '0';
    TwoLineBranch(Handled, Port0, d);
  }

  /** EdgeOS's template writes each directive of EdgeOSLines on a line of
      its own and ends the file with one newline. */
  lemma {:induction false} EdgeOSRendersLines(d: Data)
    ensures RenderEdgeOS(d) == FileText(EdgeOSLines(d))
  {
    var rest := if d.cacheEnabled then [Handled, Port0] else DelegateLines(d);
    if d.cacheEnabled {
      EdgeOSCacheBranch(d);
    } else {
      ExecuteIf(CacheEnabled, EdgeOS[1].thenBranch, Delegate, d);
      ExecuteDelegate(d);
    }
    Frame(EdgeOS, NL + Join(rest, '\n'), d);
    HeaderThen(Header, rest, Join(rest, '\n'));
  }

  /** A file of newline-free lines ends with a newline, and cutting it at
      its newlines gives the lines back: each line holds one directive. */
  lemma FileTextLines(lines: seq<string>)
    requires |lines| > 0
    requires forall i :: 0 <= i < |lines| ==> '\n' !in lines[i]
    ensures var text := FileText(lines);
      |text| > 0 && text[|text| - 1] == '\n' && Split(text[..|text| - 1], '\n') == lines
  {
    var text := FileText(lines);
    assert text[..|text| - 1] == Join(lines, '\n');
    SplitJoin(lines, '\n');
  }

  /** The first character of each fixed directive; no two start alike
      except the two comment lines, which differ in their third. */
  lemma DirectivesDiffer(port: string)
    ensures Header != Handled && Header[2] == 'C' && Handled[2] == 'D'
    ensures Port0[0] == 'p' && NoResolv[0] == 'n' && AddMac[0] == 'a' && AddSubnet[0] == 'a'
    ensures AddMac != AddSubnet && Header[0] == '#' && Handled[0] == '#'
    ensures (ServerPrefix + port)[0] == 's'
    ensures '\n' !in Header && '\n' !in Handled && '\n' !in Port0 && '\n' !in NoResolv
    ensures '\n' !in ServerPrefix && '\n' !in AddMac && '\n' !in AddSubnet
  {
    assert |AddMac| != |AddSubnet|;
  }

  /** OpenWrt's file: the header first; the cache comment exactly when the
      cache is on, with `port=0` only when SetPort0 is also set; otherwise
      the forwarding directives, with the client-reporting pair exactly when
      ClientReporting is set. */
  lemma OpenWrtDirectives(d: Data)
    ensures var lines := OpenWrtLines(d);
      && lines[0] == Header
      && (Handled in lines <==> d.cacheEnabled)
      && (Port0 in lines <==> d.cacheEnabled && d.setPort0)
      && (NoResolv in lines <==> !d.cacheEnabled)
      && (ServerPrefix + d.listenPort in lines <==> !d.cacheEnabled)
      && (AddMac in lines <==> !d.cacheEnabled && d.clientReporting)
      && (AddSubnet in lines <==> !d.cacheEnabled && d.clientReporting)
  {
    DirectivesDiffer(d.listenPort);
  }

  /** EdgeOS's file: the header first; with the cache on, the comment and
      `port=0` always; otherwise the forwarding directives, with the
      client-reporting pair exactly when ClientReporting is set. */
  lemma EdgeOSDirectives(d: Data)
    ensures var lines := EdgeOSLines(d);
      && lines[0] == Header
      && (Handled in lines <==> d.cacheEnabled)
      && (Port0 in lines <==> d.cacheEnabled)
      && (NoResolv in lines <==> !d.cacheEnabled)
      && (ServerPrefix + d.listenPort in lines <==> !d.cacheEnabled)
      && (AddMac in lines <==> !d.cacheEnabled && d.clientReporting)
      && (AddSubnet in lines <==> !d.cacheEnabled && d.clientReporting)
  {
    DirectivesDiffer(d.listenPort);
  }

  /** Each directive of OpenWrt's file sits on a line of its own and the
      file ends with one newline. */
  lemma OpenWrtOnePerLine(d: Data)
    requires '\n' !in d.listenPort
    ensures var text := RenderOpenWrt(d);
      |text| > 0 && text[|text| - 1] == '\n' && Split(text[..|text| - 1], '\n') == OpenWrtLines(d)
  {
    DirectivesDiffer(d.listenPort);
    var lines := OpenWrtLines(d);
    OpenWrtRendersLines(d);
    forall i | 0 <= i < |lines| ensures '\n' !in lines[i] {
    }
    FileTextLines(lines);
  }

  /** Each directive of EdgeOS's file sits on a line of its own and the
      file ends with one newline. */
  lemma EdgeOSOnePerLine(d: Data)
    requires '\n' !in d.listenPort
    ensures var text := RenderEdgeOS(d);
      |text| > 0 && text[|text| - 1] == '\n' && Split(text[..|text| - 1], '\n') == EdgeOSLines(d)
  {
    DirectivesDiffer(d.listenPort);
    var lines := EdgeOSLines(d);
    EdgeOSRendersLines(d);
    forall i | 0 <= i < |lines| ensures '\n' !in lines[i] {
    }
    FileTextLines(lines);
  }
}
