/** Importing a wg-quick file, end to end: text, parser, validation, store. */
module ImportRoundTrip {
  import opened Basics
  import opened Text
  import opened Config
  import opened Kernel
  import opened Tunnel
  import opened Switch
  import opened Daemon
  import opened DaemonSafety
  import WgConf
  import WgConfLayout

  /** The stored tunnel carries exactly the file's fields. An empty private key is replaced by a generated one. */
  predicate Carries(s: ServerConfig, name: string, cfg: WgConf.ParsedConfig, freshKey: string) {
    && s.name == Trim(name)
    && s.privateKey == (if cfg.privateKey == "" then freshKey else cfg.privateKey)
    && s.publicKey == cfg.publicKey && s.endpoint == cfg.endpoint
    && s.addresses == cfg.addresses && s.allowedIps == cfg.allowedIps && s.dns == cfg.dns
    && s.listenPort == (if cfg.listenPort.Some? then cfg.listenPort.value else 0)
    && s.mtu == cfg.mtu && s.keepalive == cfg.keepalive && s.presharedKey == cfg.presharedKey
  }

  lemma ReadTrims(conf: string)
    ensures ReadConf(conf).Some? ==> Trimmed(ReadConf(conf).value.privateKey)
  {
    hide WgConf.Meaning, WgConf.ClassifyAll, WgConf.Lines, Trimmed;
    WgConf.ScalarsAreTrimmed(conf);
  }

  /** An import that is answered with the list stored, under the trimmed name, what the file says, with the endpoint
      that was found; every other name is as before. */
  lemma ImportStores(lib: Lib, env: Oracle, d: DState, name: string, conf: string, ext: Ext, cfg: WgConf.ParsedConfig,
                     d': DState, infos: seq<ServerInfo>, other: string)
    returns (s: ServerConfig, found: SocketAddr)
    requires ReadConf(conf) == Some(cfg)
    requires Handle(lib, env, d, ImportServer(name, conf), ext) == (d', ServerList(infos))
    ensures FindIn(d'.servers, Trim(name)) == Some(s) && Carries(s, name, cfg, ext.freshKey) && d'.disk == d'.servers
    ensures ResolveEndpoint(lib, s, ext.answer) == Some(found) && s.resolvedEndpoint == Some(lib.showSocket(found))
    ensures other != Trim(name) ==> FindIn(d'.servers, other) == FindIn(d.servers, other)
  {
    hide Trim, ValidateServer, ReadConf, ParseMasks, ParseAddresses, ParseDns, UpsertIn, FindIn, Listed;
    assert Trimmed(cfg.privateKey) by {
      ReadTrims(conf);
    }
    TrimFixpoint(cfg.privateKey);
    var spec := SpecOf(name, cfg);
    var change := Add(lib, d, spec, ext);
    ListedKeeps(lib, env, change.0, ext);
    var admitted := Assembled(spec, Or(Supplied(spec.privateKey), ext.freshKey), spec.presharedKey);
    ValidateExactly(lib, admitted, ext.answer);
    found := ValidateServer(lib, admitted, ext.answer).value;
    s := admitted.(resolvedEndpoint := Some(lib.showSocket(found)));
    UpsertLookup(d.servers, s, Trim(name));
    UpsertLookup(d.servers, s, other);
  }

  /** A configuration printed in wg-quick form and imported is stored as it was. */
  lemma PrintedImports(lib: Lib, env: Oracle, d: DState, name: string, cfg: WgConf.ParsedConfig, ext: Ext,
                       d': DState, infos: seq<ServerInfo>)
    returns (s: ServerConfig)
    requires WgConfLayout.Printable(cfg)
    requires Handle(lib, env, d, ImportServer(name, WgConfLayout.Print(cfg)), ext) == (d', ServerList(infos))
    ensures FindIn(d'.servers, Trim(name)) == Some(s) && Carries(s, name, cfg, ext.freshKey)
  {
    hide Trim, Handle, WgConf.Meaning, WgConf.ClassifyAll, WgConf.Lines, WgConfLayout.Print, Carries, FindIn;
    WgConfLayout.ParsePrint(cfg);
    var found: SocketAddr;
    s, found := ImportStores(lib, env, d, name, WgConfLayout.Print(cfg), ext, cfg, d', infos, name);
  }
}
