/**
 Lists of hosts that bypass the proxy: how the lists of the cluster and of the custom resource are merged, and
 how a list is rewritten into the form the Java runtime expects.
 */
module NoProxy {
  import opened Strings

  // ---------- text replacement ----------

  predicate StartsWith(s: string, prefix: string) {
    prefix <= s
  }

  /** Every occurrence from left to right, without overlap. */
  function ReplaceAll(s: string, old_: string, new_: string): string
    requires old_ != ""
  {
    if s == "" then ""
    else if StartsWith(s, old_) then new_ + ReplaceAll(s[|old_|..], old_, new_)
    else [s[0]] + ReplaceAll(s[1..], old_, new_)
  }

  function Star(host: string): string {
    if StartsWith(host, ".") then "*" + host else host
  }

  function Starred(hosts: seq<string>): (r: seq<string>)
    ensures |r| == |hosts| && forall i | 0 <= i < |r| :: r[i] == Star(hosts[i])
  {
    seq(|hosts|, i requires 0 <= i < |hosts| => Star(hosts[i]))
  }

  /** What a list means: the pieces between ',' and '|', without spaces. */
  function Hosts(s: string): (r: seq<string>)
    ensures |r| >= 1
    ensures forall i | 0 <= i < |r| :: Clean(r[i])
  {
    if s == "" then [""]
    else
      var rest := Hosts(s[1..]);
      if s[0] == ',' || s[0] == '|' then [""] + rest
      else if s[0] == ' ' then rest
      else rest[0 := [s[0]] + rest[0]]
  }

  predicate Clean(host: string) {
    Free(host, ',') && Free(host, '|') && Free(host, ' ')
  }

  function WithoutSpaces(s: string): string {
    ReplaceAll(s, " ", "")
  }

  function WithBars(s: string): string {
    ReplaceAll(WithoutSpaces(s), ",", "|")
  }

  /** The rewrite, as performed: spaces out, commas to bars, a star before each dot that follows a bar, and one
      more if the list starts with a dot. */
  function JavaNoProxy(s: string): string {
    Star(ReplaceAll(WithBars(s), "|.", "|*."))
  }

  lemma {:induction false} BarsSplitIntoHosts(s: string)
    ensures Split(WithBars(s), '|') == Hosts(s)
  {
    if s != "" {
      BarsSplitIntoHosts(s[1..]);
      if s[0] == ' ' {
        assert WithoutSpaces(s) == WithoutSpaces(s[1..]) by {
          assert StartsWith(s, " ");
          assert "" + WithoutSpaces(s[1..]) == WithoutSpaces(s[1..]);
        }
      } else {
        assert !StartsWith(s, " ");
        var t := WithoutSpaces(s);
        assert t == [s[0]] + WithoutSpaces(s[1..]);
        assert t[1..] == WithoutSpaces(s[1..]);
        if s[0] == ',' {
          assert StartsWith(t, ",");
          assert WithBars(s)[1..] == WithBars(s[1..]);
        } else {
          assert !StartsWith(t, ",");
          assert WithBars(s)[1..] == WithBars(s[1..]);
        }
      }
    }
  }

  lemma PrependToFirst(c: string, pieces: seq<string>, sep: char)
    requires pieces != []
    ensures Join(pieces[0 := c + pieces[0]], sep) == c + Join(pieces, sep)
  {
    if |pieces| > 1 {
      assert pieces[0 := c + pieces[0]][1..] == pieces[1..];
      assert (c + pieces[0]) + [sep] + Join(pieces[1..], sep) == c + (pieces[0] + [sep] + Join(pieces[1..], sep));
    }
  }

  /** All hosts starred but the first. */
  function TailStarred(hosts: seq<string>): (r: seq<string>)
    requires hosts != []
    ensures |r| == |hosts|
  {
    Starred(hosts)[0 := hosts[0]]
  }

  lemma StarDot(x: string)
    ensures Star("." + x) == "*." + x
  {
    assert "*" + ("." + x) == "*." + x;
  }

  lemma JoinAfterBar(pieces: seq<string>)
    requires pieces != []
    ensures Join(TailStarred([""] + pieces), '|') == "|" + Join(Starred(pieces), '|')
  {
    assert TailStarred([""] + pieces)[1..] == Starred(pieces);
    assert "" + ['|'] + Join(Starred(pieces), '|') == "|" + Join(Starred(pieces), '|');
  }

  lemma StarredFirst(inner: seq<string>)
    requires inner != []
    ensures Starred(inner[0 := "." + inner[0]]) == TailStarred(inner)[0 := "*." + inner[0]]
  {
    StarDot(inner[0]);
  }

  lemma SplitDot(t: string)
    requires t != "" && t[0] == '.'
    ensures Split(t, '|') == Split(t[1..], '|')[0 := "." + Split(t[1..], '|')[0]]
  {
  }

  lemma DotStarred(t: string)
    requires t != "" && t[0] == '.'
    ensures Join(Starred(Split(t, '|')), '|') == "*." + Join(TailStarred(Split(t[1..], '|')), '|')
  {
    var inner := Split(t[1..], '|');
    SplitDot(t);
    StarredFirst(inner);
    PrependToFirst("*.", TailStarred(inner), '|');
  }

  lemma ReplacesBarDot(t: string)
    requires StartsWith(t, "|.")
    ensures ReplaceAll(t, "|.", "|*.") == "|*." + ReplaceAll(t[2..], "|.", "|*.")
  {
  }

  lemma DropTwice(t: string)
    requires |t| >= 2
    ensures t[1..][1..] == t[2..]
  {
  }

  lemma BarStar(x: string)
    ensures "|" + ("*." + x) == "|*." + x
  {
  }

  lemma {:induction false} BarDot(t: string)
    requires StartsWith(t, "|.")
    requires ReplaceAll(t[2..], "|.", "|*.") == Join(TailStarred(Split(t[2..], '|')), '|')
    ensures ReplaceAll(t, "|.", "|*.") == "|" + Join(Starred(Split(t[1..], '|')), '|')
  {
    var joined := Join(TailStarred(Split(t[2..], '|')), '|');
    ReplacesBarDot(t);
    DropTwice(t);
    DotStarred(t[1..]);
    BarStar(joined);
  }

  lemma BarNoDot(t: string)
    requires t != "" && t[0] == '|' && !StartsWith(t, "|.")
    requires ReplaceAll(t[1..], "|.", "|*.") == Join(TailStarred(Split(t[1..], '|')), '|')
    ensures ReplaceAll(t, "|.", "|*.") == "|" + Join(Starred(Split(t[1..], '|')), '|')
  {
    var pieces := Split(t[1..], '|');
    FirstPieceHasNoDot(t[1..]);
    assert Starred(pieces) == TailStarred(pieces);
  }

  lemma {:induction false} DotsAfterBars(t: string)
    ensures ReplaceAll(t, "|.", "|*.") == Join(TailStarred(Split(t, '|')), '|')
    decreases |t|
  {
    if t != "" {
      var pieces := Split(t[1..], '|');
      if t[0] != '|' {
        assert !StartsWith(t, "|.");
        DotsAfterBars(t[1..]);
        PrependToFirst([t[0]], TailStarred(pieces), '|');
        assert TailStarred(Split(t, '|')) == TailStarred(pieces)[0 := [t[0]] + pieces[0]];
      } else {
        JoinAfterBar(pieces);
        if StartsWith(t, "|.") {
          DotsAfterBars(t[2..]);
          BarDot(t);
        } else {
          DotsAfterBars(t[1..]);
          BarNoDot(t);
        }
      }
    }
  }

  lemma FirstPieceHasNoDot(u: string)
    requires !StartsWith(u, ".")
    ensures !StartsWith(Split(u, '|')[0], ".")
  {
  }

  /** The rewrite is what it should be for every string: the hosts of the list, a star before each that starts
      with a dot, separated by bars. */
  lemma JavaNoProxyMeaning(s: string)
    ensures JavaNoProxy(s) == Join(Starred(Hosts(s)), '|')
  {
    var hosts := Hosts(s);
    BarsSplitIntoHosts(s);
    DotsAfterBars(WithBars(s));
    var t := Join(TailStarred(hosts), '|');
    if StartsWith(hosts[0], ".") {
      PrependToFirst("*", TailStarred(hosts), '|');
      assert Starred(hosts) == TailStarred(hosts)[0 := "*" + hosts[0]];
    } else {
      assert Starred(hosts) == TailStarred(hosts);
      assert t != "" ==> t[0] == if hosts[0] == "" then '|' else hosts[0][0];
      assert !StartsWith(t, ".");
    }
  }

  lemma {:induction false} HostsOfOne(h: string)
    requires Clean(h)
    ensures Hosts(h) == [h]
  {
    if h != "" {
      HostsOfOne(h[1..]);
      assert [h[0]] + h[1..] == h;
    }
  }

  lemma {:induction false} HostsOfConcat(a: string, b: string, sep: char)
    requires sep == ',' || sep == '|'
    ensures Hosts(a + [sep] + b) == Hosts(a) + Hosts(b)
  {
    if a == "" {
      assert (a + [sep] + b)[1..] == b;
    } else {
      HostsOfConcat(a[1..], b, sep);
      assert (a + [sep] + b)[1..] == a[1..] + [sep] + b;
    }
  }

  /** Spaces mean nothing, wherever they are. */
  lemma {:induction false} HostsIgnoreSpaces(a: string, b: string)
    ensures Hosts(a + " " + b) == Hosts(a + b)
  {
    if a == "" {
      assert (a + " " + b)[1..] == b && a + b == b;
    } else {
      HostsIgnoreSpaces(a[1..], b);
      assert (a + " " + b)[1..] == a[1..] + " " + b && (a + b)[1..] == a[1..] + b;
    }
  }

  lemma {:induction false} HostsOfJoin(hosts: seq<string>)
    requires hosts != [] && forall i | 0 <= i < |hosts| :: Clean(hosts[i])
    ensures Hosts(Join(hosts, '|')) == hosts
  {
    HostsOfOne(hosts[0]);
    if |hosts| > 1 {
      HostsOfConcat(hosts[0], Join(hosts[1..], '|'), '|');
      HostsOfJoin(hosts[1..]);
    }
  }

  /** Rewriting twice is rewriting once. */
  lemma JavaNoProxyIdempotent(s: string)
    ensures JavaNoProxy(JavaNoProxy(s)) == JavaNoProxy(s)
  {
    var starred := Starred(Hosts(s));
    JavaNoProxyMeaning(s);
    JavaNoProxyMeaning(JavaNoProxy(s));
    HostsOfJoin(starred);
    assert Starred(starred) == starred;
  }

  // ---------- merging lists ----------

  /** The hosts of a list, where the empty string is no list at all. */
  function Listed(s: string): seq<string> {
    if s == "" then [] else Hosts(s)
  }

  function MergeNonProxy(noProxy1: string, noProxy2: string): string {
    if noProxy1 == "" then noProxy2
    else if noProxy2 == "" then noProxy1
    else noProxy1 + "," + noProxy2
  }

  /** Merging loses no host and keeps the order. */
  lemma MergeKeepsHosts(a: string, b: string)
    ensures Listed(MergeNonProxy(a, b)) == Listed(a) + Listed(b)
  {
    if a != "" && b != "" {
      HostsOfConcat(a, b, ',');
    }
  }

  /** A proxy configuration; the fields no merge looks at are left out. */
  datatype Proxy = Proxy(httpProxy: string, noProxy: string, trustedCAMapName: string)

  /** Proxy settings of the custom resource: its own list uses bars. */
  function CheProxy(httpProxy: string, nonProxyHosts: string): Proxy {
    Proxy(httpProxy, ReplaceAll(nonProxyHosts, "|", ","), "")
  }

  lemma {:induction false} BarsToCommasKeepHosts(s: string)
    ensures Hosts(ReplaceAll(s, "|", ",")) == Hosts(s)
    ensures ReplaceAll(s, "|", ",") == "" <==> s == ""
  {
    if s != "" {
      BarsToCommasKeepHosts(s[1..]);
      if s[0] == '|' {
        assert StartsWith(s, "|");
        assert ("," + ReplaceAll(s[1..], "|", ","))[1..] == ReplaceAll(s[1..], "|", ",");
      } else {
        assert !StartsWith(s, "|");
        assert ([s[0]] + ReplaceAll(s[1..], "|", ","))[1..] == ReplaceAll(s[1..], "|", ",");
      }
    }
  }

  /** Which configuration is in force. On OpenShift 4 the custom resource's own proxy wins if it is set, with
      the cluster's list (or the service domain) appended; otherwise the cluster's wins, with the custom
      resource's list appended. `clusterWide` is empty if the cluster has no proxy object. */
  method GetProxyConfiguration(openShift4: bool, clusterWide: Proxy, httpProxy: string, nonProxyHosts: string,
      useInternalNames: bool)
    returns (proxy: Proxy)
    ensures openShift4 && httpProxy != "" ==>
              && proxy.httpProxy == httpProxy && proxy.trustedCAMapName == clusterWide.trustedCAMapName
              && Listed(proxy.noProxy)
                 == Listed(nonProxyHosts)
                     + (if clusterWide.httpProxy != "" then Listed(clusterWide.noProxy) else [".svc"])
    ensures openShift4 && httpProxy == "" ==>
              && proxy.httpProxy == clusterWide.httpProxy && proxy.trustedCAMapName == clusterWide.trustedCAMapName
              && Listed(proxy.noProxy) == Listed(clusterWide.noProxy) + Listed(nonProxyHosts)
    ensures !openShift4 ==>
              && proxy.httpProxy == httpProxy && proxy.trustedCAMapName == ""
              && Listed(proxy.noProxy) == Listed(nonProxyHosts) + (if useInternalNames then [".svc"] else [])
  {
    HostsOfOne(".svc");
    BarsToCommasKeepHosts(nonProxyHosts);
    var che := CheProxy(httpProxy, nonProxyHosts);
    if openShift4 {
      proxy := clusterWide;
      MergeKeepsHosts(che.noProxy, clusterWide.noProxy);
      MergeKeepsHosts(che.noProxy, ".svc");
      MergeKeepsHosts(clusterWide.noProxy, che.noProxy);
      if che.httpProxy != "" {
        if proxy.httpProxy != "" {
          che := che.(noProxy := MergeNonProxy(che.noProxy, proxy.noProxy));
        } else {
          che := che.(noProxy := MergeNonProxy(che.noProxy, ".svc"));
        }
        che := che.(trustedCAMapName := proxy.trustedCAMapName);
        return che;
      }
      proxy := proxy.(noProxy := MergeNonProxy(proxy.noProxy, che.noProxy));
      return proxy;
    }
    if useInternalNames {
      MergeKeepsHosts(che.noProxy, ".svc");
      che := che.(noProxy := MergeNonProxy(che.noProxy, ".svc"));
    }
    return che;
  }

  /** The list handed to the Java runtime: the given one, or the configuration's if none is given. */
  method NonProxyHostsForJava(proxy: Proxy, given: string) returns (noProxy: string)
    ensures noProxy == Join(Starred(Hosts(if given == "" then proxy.noProxy else given)), '|')
  {
    noProxy := given;
    if noProxy == "" {
      noProxy := proxy.noProxy;
    }
    JavaNoProxyMeaning(noProxy);
    noProxy := ReplaceAll(noProxy, " ", "");
    noProxy := ReplaceAll(noProxy, ",", "|");
    noProxy := ReplaceAll(noProxy, "|.", "|*.");
    if StartsWith(noProxy, ".") {
      noProxy := "*" + noProxy;
    }
  }
}
