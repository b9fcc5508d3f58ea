/** Properties of one polling cycle, proved about the functions of Ingest. */
module IngestLemmas {
  import opened Responses
  import opened Ingest

  lemma AllUsableAppend(a: seq<VirtualServer>, b: seq<VirtualServer>)
    requires AllUsable(a) && AllUsable(b)
    ensures AllUsable(a + b)
  {
    forall i | 0 <= i < |a + b| ensures InfoUsable((a + b)[i]) {
      if i >= |a| { assert (a + b)[i] == b[i - |a|]; }
    }
  }

  /** Processing a + b is processing a, then b. */
  lemma {:induction false} FoldAppend(e: Exported, a: seq<VirtualServer>, b: seq<VirtualServer>)
    requires AllUsable(a) && AllUsable(b)
    ensures AllUsable(a + b)
    ensures Fold(e, a + b) == Fold(Fold(e, a), b)
    decreases |b|
  {
    AllUsableAppend(a, b);
    if b == [] {
      assert a + b == a;
    } else {
      var b' := b[..|b| - 1];
      assert (a + b)[..|a + b| - 1] == a + b';
      FoldAppend(e, a, b');
    }
  }

  /** A server whose `serverinfo` fails contributes nothing, and the servers
      after it are processed exactly as if it were not in the list. */
  lemma ServerInfoErrorSkipsOnlyThatServer(e: Exported, servers: seq<VirtualServer>, j: nat)
    requires AllUsable(servers) && j < |servers|
    requires servers[j].serverinfo.msg != OK
    ensures AllUsable(servers[..j] + servers[j + 1..])
    ensures Fold(e, servers) == Fold(e, servers[..j] + servers[j + 1..])
  {
    var a, x, b := servers[..j], [servers[j]], servers[j + 1..];
    assert servers == a + (x + b);
    FoldAppend(e, a, x + b);
    FoldAppend(Fold(e, a), x, b);
    assert x[..0] == [];
    assert Fold(Fold(e, a), x) == Fold(e, a);
    FoldAppend(e, a, b);
  }

  /** A failed `clientlist` adds no presence series, while the scalars just
      taken from `serverinfo` stay set. */
  lemma ClientListErrorKeepsScalars(e: Exported, srv: VirtualServer)
    requires InfoUsable(srv) && srv.serverinfo.msg == OK && srv.clientlist.msg != OK
    ensures ServerStep(e, srv).playerOnline == e.playerOnline
    ensures forall n :: n in METRICS_NAMES && n in Info(srv) ==>
      (n, ServerName(srv)) in ServerStep(e, srv).scalars
      && ServerStep(e, srv).scalars[(n, ServerName(srv))] == Info(srv)[n]
  {
  }

  /** One server's step: nothing on a failed `serverinfo`; otherwise its
      catalogue values are set under its name, series of other servers keep
      their values, nothing is removed, and a failed `clientlist` adds no
      presence series. */
  lemma ServerStepMeaning(e: Exported, srv: VirtualServer)
    requires InfoUsable(srv)
    ensures srv.serverinfo.msg != OK ==> ServerStep(e, srv) == e
    ensures e.scalars.Keys <= ServerStep(e, srv).scalars.Keys
    ensures e.playerOnline <= ServerStep(e, srv).playerOnline
    ensures srv.clientlist.msg != OK ==> ServerStep(e, srv).playerOnline == e.playerOnline
    ensures srv.serverinfo.msg == OK ==>
      forall k :: k in e.scalars && k.1 != ServerName(srv) ==> ServerStep(e, srv).scalars[k] == e.scalars[k]
    ensures srv.serverinfo.msg == OK ==>
      forall n :: n in METRICS_NAMES && n in Info(srv) ==>
        (n, ServerName(srv)) in ServerStep(e, srv).scalars
        && ServerStep(e, srv).scalars[(n, ServerName(srv))] == Info(srv)[n]
  {
  }

  /** Every admitted row of a server is marked, and every tuple marked for
      it carries the server's name, a non-empty `clid` and a non-empty
      `client_nickname` other than `serveradmin`. */
  lemma PlayersOnlineMeaning(serverName: string, players: seq<Record>)
    ensures forall p :: p in players && Admitted(p) ==> PlayerLabels(serverName, p) in PlayersOnline(serverName, players)
    ensures forall t :: t in PlayersOnline(serverName, players) ==>
      |t| == 1 + |PLAYER_ATTRIBUTES| && t[0] == serverName
      && t[CLID_LABEL] != "" && t[NICKNAME_LABEL] !in {"", SERVER_ADMIN}
  {
    forall t | t in PlayersOnline(serverName, players)
      ensures |t| == 1 + |PLAYER_ATTRIBUTES| && t[0] == serverName
      ensures t[CLID_LABEL] != "" && t[NICKNAME_LABEL] !in {"", SERVER_ADMIN}
    {
      var p :| p in players && Admitted(p) && t == PlayerLabels(serverName, p);
      AdmittedLabels(serverName, p);
    }
  }

  /** The state after any run of servers: the old scalars overwritten by what
      the servers write, the old presence series together with what they mark. */
  lemma {:induction false} FoldClosedForm(e: Exported, servers: seq<VirtualServer>)
    requires AllUsable(servers)
    ensures Fold(e, servers) == Exported(e.scalars + Written(servers), e.playerOnline + Marked(servers))
    decreases |servers|
  {
    if servers != [] {
      var init, last := servers[..|servers| - 1], servers[|servers| - 1];
      FoldClosedForm(e, init);
      var mid := Fold(e, init);
      if last.serverinfo.msg == OK {
        var name := ServerName(last);
        var added := ServerScalars(name, Info(last));
        MapUnionAssociative(e.scalars, Written(init), added);
        assert Fold(e, servers).scalars == mid.scalars + added;
        if last.clientlist.msg == OK {
          var marked := PlayersOnline(name, last.clientlist.data);
          assert Fold(e, servers).playerOnline == mid.playerOnline + marked;
          assert Marked(servers) == Marked(init) + marked;
        } else {
          assert Marked(servers) == Marked(init);
        }
      } else {
        assert ServerWrites(last) == map[];
        assert Written(servers) == Written(init);
        assert Marked(servers) == Marked(init);
      }
    }
  }

  lemma MapUnionAssociative<K, V>(a: map<K, V>, b: map<K, V>, c: map<K, V>)
    ensures (a + b) + c == a + (b + c)
  {
  }

  /** Adding one name to those copied adds at most its own series. */
  lemma ScalarsFromSnoc(names: seq<string>, name: string, serverName: string, info: Record)
    ensures ScalarsFrom(names + [name], serverName, info)
      == if name in info then ScalarsFrom(names, serverName, info)[(name, serverName) := info[name]]
         else ScalarsFrom(names, serverName, info)
  {
  }

  /** Updating one key after a union is updating it in the right operand. */
  lemma UpdateAfterUnion<K, V>(a: map<K, V>, b: map<K, V>, k: K, v: V)
    ensures (a + b)[k := v] == a + b[k := v]
  {
  }

  /** Running two cycles on the same answers exports the same state as one. */
  lemma CycleIdempotent(e: Exported, resp: ServerList)
    requires WellFormed(resp)
    ensures Cycle(Cycle(e, resp), resp) == Cycle(e, resp)
  {
    if resp.msg == OK {
      var once := Cycle(e, resp);
      FoldClosedForm(e, resp.servers);
      FoldClosedForm(once, resp.servers);
      var w := Written(resp.servers);
      assert once.scalars + w == e.scalars + w;
    }
  }

  /** A server writes a series exactly when its `serverinfo` succeeded and
      its row has the series' catalogue name, and writes that row's value. */
  lemma ServerWritesMeaning(srv: VirtualServer, k: ScalarKey)
    requires InfoUsable(srv)
    ensures k in ServerWrites(srv) <==> Writes(srv, k)
    ensures k in ServerWrites(srv) ==> ServerWrites(srv)[k] == Info(srv)[k.0]
  {
  }

  /** A scalar series is written exactly when some server writes it. */
  lemma {:induction false} WrittenKeys(servers: seq<VirtualServer>, k: ScalarKey)
    requires AllUsable(servers)
    ensures k in Written(servers) <==> exists i :: 0 <= i < |servers| && Writes(servers[i], k)
    decreases |servers|
  {
    if servers != [] {
      var n := |servers| - 1;
      var init, last := servers[..n], servers[n];
      WrittenKeys(init, k);
      ServerWritesMeaning(last, k);
      if k in Written(init) {
        var i :| 0 <= i < n && Writes(init[i], k);
        assert servers[i] == init[i];
      }
      forall i | 0 <= i < n && Writes(servers[i], k) ensures k in Written(init) {
        assert servers[i] == init[i];
      }
    }
  }

  /** The value of a written series is the one some server writing it
      reported. */
  lemma {:induction false} WrittenProvenance(servers: seq<VirtualServer>, k: ScalarKey)
    requires AllUsable(servers) && k in Written(servers)
    ensures exists i :: 0 <= i < |servers| && Writes(servers[i], k) && Written(servers)[k] == Info(servers[i])[k.0]
    decreases |servers|
  {
    var n := |servers| - 1;
    var init, last := servers[..n], servers[n];
    ServerWritesMeaning(last, k);
    if Writes(last, k) {
      assert Written(servers)[k] == Info(servers[n])[k.0];
    } else {
      WrittenProvenance(init, k);
      var i :| 0 <= i < n && Writes(init[i], k) && Written(init)[k] == Info(init[i])[k.0];
      assert servers[i] == init[i];
    }
  }

  /** The last server that writes a scalar series decides its value: two
      servers sharing a display name overwrite each other's series. */
  lemma {:induction false} LastWriterWins(servers: seq<VirtualServer>, k: ScalarKey, j: nat)
    requires AllUsable(servers) && j < |servers|
    requires Writes(servers[j], k)
    requires forall i :: j < i < |servers| ==> !Writes(servers[i], k)
    ensures k in Written(servers) && Written(servers)[k] == Info(servers[j])[k.0]
    decreases |servers|
  {
    var n := |servers| - 1;
    if j < n {
      var init := servers[..n];
      forall i | j < i < |init| ensures !Writes(init[i], k) {
        assert init[i] == servers[i];
      }
      LastWriterWins(init, k, j);
      assert !Writes(servers[n], k);
    }
  }

  /** No series is fabricated: a scalar series that no server of a
      successful cycle writes keeps its presence and its previous value. */
  lemma NoFabricatedScalars(e: Exported, resp: ServerList, k: ScalarKey)
    requires WellFormed(resp)
    requires resp.msg == OK ==> forall i :: 0 <= i < |resp.servers| ==> !Writes(resp.servers[i], k)
    ensures k in Cycle(e, resp).scalars <==> k in e.scalars
    ensures k in e.scalars ==> Cycle(e, resp).scalars[k] == e.scalars[k]
  {
    if resp.msg == OK {
      FoldClosedForm(e, resp.servers);
      WrittenKeys(resp.servers, k);
    }
  }

  /** A series that a server of a successful cycle writes holds the value
      from the last such server's `serverinfo`. */
  lemma ScalarFromLastWriter(e: Exported, resp: ServerList, k: ScalarKey, j: nat)
    requires WellFormed(resp) && resp.msg == OK && j < |resp.servers|
    requires Writes(resp.servers[j], k)
    requires forall i :: j < i < |resp.servers| ==> !Writes(resp.servers[i], k)
    ensures k in Cycle(e, resp).scalars
    ensures Cycle(e, resp).scalars[k] == Info(resp.servers[j])[k.0]
  {
    FoldClosedForm(e, resp.servers);
    LastWriterWins(resp.servers, k, j);
  }

  /** A presence series is marked exactly when some server marks it. */
  lemma {:induction false} MarkedProvenance(servers: seq<VirtualServer>, t: LabelValues)
    requires AllUsable(servers)
    ensures t in Marked(servers) <==> exists i :: 0 <= i < |servers| && Marks(servers[i], t)
    decreases |servers|
  {
    if servers != [] {
      var n := |servers| - 1;
      var init := servers[..n];
      MarkedProvenance(init, t);
      if t in Marked(init) {
        var i :| 0 <= i < n && Marks(init[i], t);
        assert servers[i] == init[i];
      }
      forall i | 0 <= i < n && Marks(servers[i], t) ensures t in Marked(init) {
        assert servers[i] == init[i];
      }
    }
  }

  /** After a cycle, a presence series exists exactly when it existed before
      or some server of a successful cycle marked it. Nothing is retracted. */
  lemma PresenceAfterCycle(e: Exported, resp: ServerList, t: LabelValues)
    requires WellFormed(resp)
    ensures t in Cycle(e, resp).playerOnline <==>
      t in e.playerOnline
      || (resp.msg == OK && exists i :: 0 <= i < |resp.servers| && Marks(resp.servers[i], t))
  {
    if resp.msg == OK {
      FoldClosedForm(e, resp.servers);
      MarkedProvenance(resp.servers, t);
    }
  }

  /** `read` never removes a presence series, so a client that has left stays
      exported: app.py has no retraction step. */
  lemma PresenceNeverShrinks(e: Exported, resp: ServerList)
    requires WellFormed(resp)
    ensures e.playerOnline <= Cycle(e, resp).playerOnline
  {
    if resp.msg == OK {
      FoldClosedForm(e, resp.servers);
    }
  }

  /** Every series a cycle adds has the full label tuple, a non-empty `clid`,
      and a non-empty `client_nickname` that is not `serveradmin`. */
  lemma NoServerAdminRows(e: Exported, resp: ServerList, t: LabelValues)
    requires WellFormed(resp)
    requires t in Cycle(e, resp).playerOnline && t !in e.playerOnline
    ensures |t| == 1 + |PLAYER_ATTRIBUTES|
    ensures t[NICKNAME_LABEL] != SERVER_ADMIN && t[NICKNAME_LABEL] != ""
    ensures t[CLID_LABEL] != ""
  {
    PresenceAfterCycle(e, resp, t);
    var i :| 0 <= i < |resp.servers| && Marks(resp.servers[i], t);
    var srv := resp.servers[i];
    var p :| p in srv.clientlist.data && Admitted(p) && t == PlayerLabels(ServerName(srv), p);
    AdmittedLabels(ServerName(srv), p);
  }

  /** The label tuple of an admitted row carries its `clid` and
      `client_nickname` as they are. */
  lemma AdmittedLabels(serverName: string, p: Record)
    requires Admitted(p)
    ensures PlayerLabels(serverName, p)[CLID_LABEL] == Get(p, CLID).value
    ensures PlayerLabels(serverName, p)[NICKNAME_LABEL] == Get(p, CLIENT_NICKNAME).value
    ensures PlayerLabels(serverName, p)[CLID_LABEL] != ""
    ensures PlayerLabels(serverName, p)[NICKNAME_LABEL] !in {"", SERVER_ADMIN}
  {
    var t := PlayerLabels(serverName, p);
    assert PLAYER_ATTRIBUTES[2] == CLID;
    assert PLAYER_ATTRIBUTES[5] == CLIENT_NICKNAME;
    assert t[CLID_LABEL] == LabelText(Get(p, PLAYER_ATTRIBUTES[2]));
    assert t[NICKNAME_LABEL] == LabelText(Get(p, PLAYER_ATTRIBUTES[5]));
  }

  /** The `serveradmin` row, or a row without a truthy `clid` or
      `client_nickname`, adds nothing, wherever it stands among the rows. */
  lemma DroppedRowAddsNothing(serverName: string, a: seq<Record>, p: Record, b: seq<Record>)
    requires !Admitted(p)
    ensures PlayersOnline(serverName, a + [p] + b) == PlayersOnline(serverName, a + b)
  {
    forall q | q in a + [p] + b && Admitted(q) ensures q in a + b {
      assert q != p;
    }
    forall q | q in a + b ensures q in a + [p] + b {
    }
  }

  /** Marking the same client row again adds nothing. */
  lemma RepeatedRowAddsNothing(serverName: string, a: seq<Record>, p: Record, b: seq<Record>)
    requires p in a + b
    ensures PlayersOnline(serverName, a + [p] + b) == PlayersOnline(serverName, a + b)
  {
    forall q | q in a + [p] + b ensures q in a + b {
    }
    forall q | q in a + b ensures q in a + [p] + b {
    }
  }

  /** A failed server list leaves the exported state as it was. */
  lemma ServerListErrorKeepsState(e: Exported, resp: ServerList)
    requires WellFormed(resp) && resp.msg != OK
    ensures Cycle(e, resp) == e
  {
  }

  /** An empty server list leaves the exported state as it was; in
      particular no presence series is retracted. */
  lemma EmptyServerListKeepsState(e: Exported)
    ensures Cycle(e, ServerList(OK, [])) == e
  {
  }
}
