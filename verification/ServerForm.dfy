/** The edit form: a stored tunnel shown as text, and the text read back into an edit. */
module ServerForm {
  import opened Basics
  import opened Text
  import opened Config
  import opened Kernel
  import opened Tunnel
  import opened Daemon
  import opened DaemonSafety
  import opened DaemonValues

  /** The part of the language's `Number` that matters: the whole number a text denotes, if it denotes one. */
  type NumberReader = string -> Option<int>

  /** A number of up to 32 bits written in decimal is read back. */
  ghost predicate ReadsDecimals(number: NumberReader) {
    forall n: nat :: n < 0x1_0000_0000 ==> number(Decimal(n)) == Some(n)
  }

  // --- text fields -------------------------------------------------------------

  /** An empty number field means none; anything but a whole, non-negative number is refused. */
  function NumOrNull(number: NumberReader, s: string): Result<Option<nat>, FormError> {
    var t := Trim(s);
    if t == "" then Ok(None)
    else
      match number(t)
      case None => Err(NotWhole)
      case Some(n) => if n >= 0 then Ok(Some(n)) else Err(NotWhole)
  }

  function NumStr(n: Option<nat>): string {
    if n.None? then "" else Decimal(n.value)
  }

  datatype KeyMode = Generate | ImportKey | Keep

  datatype FormError = Required | PasteKey | NotWhole

  datatype Fields = Fields(
    name: string,
    publicKey: string,
    endpoint: string,
    addresses: string,
    allowedIps: string,
    keyMode: KeyMode,
    privateKey: string,
    dns: string,
    presharedKey: string,
    keepalive: string,
    listenPort: string,
    mtu: string)

  /** What goes over the wire: numbers are not yet known to fit. */
  datatype Draft = Draft(
    name: string,
    privateKey: Option<string>,
    publicKey: string,
    endpoint: string,
    addresses: seq<string>,
    allowedIps: seq<string>,
    listenPort: Option<nat>,
    mtu: Option<nat>,
    keepalive: Option<nat>,
    presharedKey: Option<string>,
    dns: seq<string>)

  predicate Filled(f: Fields) {
    Trim(f.name) != "" && Trim(f.publicKey) != "" && Trim(f.endpoint) != "" && Trim(f.addresses) != ""
  }

  function DraftOf(number: NumberReader, f: Fields): Result<Draft, FormError> {
    if !Filled(f) then Err(Required)
    else if f.keyMode == ImportKey && Trim(f.privateKey) == "" then Err(PasteKey)
    else
      var keepalive := NumOrNull(number, f.keepalive);
      var port := NumOrNull(number, f.listenPort);
      var mtu := NumOrNull(number, f.mtu);
      if keepalive.Err? || port.Err? || mtu.Err? then Err(NotWhole)
      else
        Ok(Draft(Trim(f.name), if f.keyMode == ImportKey then Some(Trim(f.privateKey)) else None, Trim(f.publicKey),
                 Trim(f.endpoint), Csv(f.addresses), Csv(f.allowedIps), port.value, mtu.value, keepalive.value,
                 if Trim(f.presharedKey) == "" then None else Some(Trim(f.presharedKey)), Csv(f.dns)))
  }

  function Fits(n: Option<nat>, limit: nat): bool {
    n.Some? ==> n.value < limit
  }

  function AsU16(n: Option<nat>): Option<u16>
    requires Fits(n, 0x1_0000)
  {
    if n.None? then None else Some(n.value)
  }

  function AsU32(n: Option<nat>): Option<u32>
    requires Fits(n, 0x1_0000_0000)
  {
    if n.None? then None else Some(n.value)
  }

  /** The daemon's side of the wire: a number that does not fit its field is not a request. */
  function SpecOfDraft(d: Draft): Option<ServerSpec> {
    if !Fits(d.listenPort, 0x1_0000) || !Fits(d.mtu, 0x1_0000_0000) || !Fits(d.keepalive, 0x1_0000) then None
    else Some(ServerSpec(d.name, d.privateKey, d.publicKey, d.endpoint, d.addresses, d.allowedIps, AsU16(d.listenPort),
                         AsU32(d.mtu), AsU16(d.keepalive), d.presharedKey, d.dns))
  }

  /** The form as it opens on a stored tunnel: secrets blank, the key kept. */
  function Opened(detail: ServerDetail): Fields {
    Fields(detail.name, detail.publicKey, detail.endpoint, Join(detail.addresses), Join(detail.allowedIps), Keep, "",
           Join(detail.dns), "", NumStr(detail.keepalive), NumStr(detail.listenPort), NumStr(detail.mtu))
  }

  /** The form component: fields and the inline error, changed by `submit`. */
  class Form {
    const number: NumberReader
    var fields: Fields
    var error: Option<FormError>
    var busy: bool

    constructor Edit(number: NumberReader, detail: ServerDetail)
      ensures this.number == number && fields == Opened(detail) && error.None? && !busy
    {
      this.number := number;
      fields := Fields(detail.name, detail.publicKey, detail.endpoint, Join(detail.addresses), Join(detail.allowedIps),
                       Keep, "", Join(detail.dns), "", NumStr(detail.keepalive), NumStr(detail.listenPort),
                       NumStr(detail.mtu));
      error := None;
      busy := false;
    }

    /** `submit` up to the call: an error is shown and nothing is sent, or the draft is and the form is busy. */
    method Submit() returns (sent: Option<Draft>)
      modifies this`error, this`busy
      ensures sent == (if DraftOf(number, fields).Ok? then Some(DraftOf(number, fields).value) else None)
      ensures error == (if DraftOf(number, fields).Ok? then None else Some(DraftOf(number, fields).error))
      ensures busy == if sent.Some? then true else old(busy)
    {
      hide Trim, Csv;
      error := None;
      sent := None;
      if !Filled(fields) {
        error := Some(Required);
        return;
      }
      if fields.keyMode == ImportKey && Trim(fields.privateKey) == "" {
        error := Some(PasteKey);
        return;
      }
      var keepalive := NumOrNull(number, fields.keepalive);
      var port := NumOrNull(number, fields.listenPort);
      var mtu := NumOrNull(number, fields.mtu);
      if keepalive.Err? || port.Err? || mtu.Err? {
        error := Some(NotWhole);
        return;
      }
      sent := Some(Draft(Trim(fields.name), if fields.keyMode == ImportKey then Some(Trim(fields.privateKey)) else None,
                         Trim(fields.publicKey), Trim(fields.endpoint), Csv(fields.addresses), Csv(fields.allowedIps),
                         port.value, mtu.value, keepalive.value,
                         if Trim(fields.presharedKey) == "" then None else Some(Trim(fields.presharedKey)),
                         Csv(fields.dns)));
      busy := true;
    }
  }

  // --- the round trip ----------------------------------------------------------

  lemma DecimalTrims(n: nat)
    ensures Trim(Decimal(n)) == Decimal(n)
  {
    hide Trim, Decimal;
    var s := Decimal(n);
    assert s[0] in s && s[|s| - 1] in s;
    TrimFixpoint(s);
  }

  lemma NumberRoundTrip(number: NumberReader, n: Option<nat>)
    requires ReadsDecimals(number) && Fits(n, 0x1_0000_0000)
    ensures NumOrNull(number, NumStr(n)) == Ok(n)
  {
    hide Trim, Decimal;
    if n.Some? {
      DecimalTrims(n.value);
    } else {
      BlankTrims();
    }
  }

  lemma BlankTrims()
    ensures Trim("") == ""
  {
    TrimFixpoint("");
  }

  /** What the form opened on this tunnel sends when it is saved untouched. */
  function Untouched(s: ServerConfig): Draft {
    Draft(Trim(s.name), None, Trim(s.publicKey), Trim(s.endpoint), Csv(Join(s.addresses)), Csv(Join(s.allowedIps)),
          DetailOf(s).listenPort, s.mtu, s.keepalive, None, Csv(Join(s.dns)))
  }

  lemma UntouchedIsSent(number: NumberReader, s: ServerConfig)
    requires ReadsDecimals(number) && Filled(Opened(DetailOf(s)))
    ensures DraftOf(number, Opened(DetailOf(s))) == Ok(Untouched(s))
    ensures SpecOfDraft(Untouched(s)).Some?
  {
    hide Trim, Csv, Decimal, NumOrNull, ReadsDecimals;
    NumberRoundTrip(number, s.keepalive);
    NumberRoundTrip(number, DetailOf(s).listenPort);
    NumberRoundTrip(number, s.mtu);
    BlankTrims();
  }

  /** What a form can carry without change: trimmed scalars, and list items a comma list can hold. */
  predicate FormShaped(s: ServerConfig) {
    && Trimmed(s.name) && Trimmed(s.publicKey) && Trimmed(s.endpoint)
    && (forall x :: x in s.addresses ==> ListItem(x))
    && (forall x :: x in s.allowedIps ==> ListItem(x))
    && (forall x :: x in s.dns ==> ListItem(x))
  }

  /** Saving the form untouched asks for exactly the stored tunnel, both secrets and the port 0 included, the cached
      endpoint aside, precisely when the tunnel's text has the shape a form can carry. */
  lemma UntouchedEditIff(number: NumberReader, s: ServerConfig)
    requires ReadsDecimals(number) && Filled(Opened(DetailOf(s)))
    ensures var draft := DraftOf(number, Opened(DetailOf(s)));
            && draft.Ok? && SpecOfDraft(draft.value).Some?
            && (Edited(SpecOfDraft(draft.value).value, s) == s.(resolvedEndpoint := None) <==> FormShaped(s))
  {
    hide Trim, Csv, Join, Decimal, NumOrNull, ReadsDecimals, Trimmed, ListItem, DraftOf;
    UntouchedIsSent(number, s);
    TrimFixpoint(s.name);
    TrimFixpoint(s.publicKey);
    TrimFixpoint(s.endpoint);
    TrimTwice(s.name);
    CsvRoundTrip(s.addresses);
    CsvRoundTrip(s.allowedIps);
    CsvRoundTrip(s.dns);
    var edited := Edited(SpecOfDraft(Untouched(s)).value, s);
    assert edited.listenPort == s.listenPort && edited.mtu == s.mtu && edited.keepalive == s.keepalive;
    assert edited.privateKey == s.privateKey && edited.presharedKey == s.presharedKey;
    assert edited.name == Trim(s.name) && edited.publicKey == Trim(s.publicKey) && edited.endpoint == Trim(s.endpoint);
    assert edited.addresses == Csv(Join(s.addresses)) && edited.allowedIps == Csv(Join(s.allowedIps))
           && edited.dns == Csv(Join(s.dns));
  }

  lemma TrimTwice(s: string)
    ensures Trim(Trim(s)) == Trim(s)
  {
    TrimGivesTrimmed(s);
    TrimFixpoint(Trim(s));
  }

  /** Through the daemon: saving the form of a stored, inactive tunnel untouched leaves every tunnel as it was, except
      that this one's cached endpoint is the one found now. */
  lemma SavingUntouchedIsANoOp(lib: Lib, env: Oracle, number: NumberReader, d: DState, s: ServerConfig, ext: Ext,
                              draft: Draft, spec: ServerSpec, found: SocketAddr, other: string)
    requires ReadsDecimals(number) && FormShaped(s)
    requires DraftOf(number, Opened(DetailOf(s))) == Ok(draft) && SpecOfDraft(draft) == Some(spec)
    requires FindIn(d.servers, s.name) == Some(s) && WellFormed(lib, s) && ext.save.Saved?
    requires EndpointAddr(lib, s.(resolvedEndpoint := None), ext.answer) == Some(found)
    requires ActiveKey(ReadLive(lib, env, d.w).1) != PublicKey(lib, s.privateKey)
    ensures var (d', r) := Handle(lib, env, d, EditServer(spec), ext);
            && r.ServerList?
            && FindIn(d'.servers, other) ==
                 (if other == s.name then Some(s.(resolvedEndpoint := Some(lib.showSocket(found))))
                  else FindIn(d.servers, other))
            && d'.disk == d'.servers
  {
    hide Trim, Csv, Join, NumOrNull, ReadsDecimals, Trimmed, ListItem, DraftOf, ReadLive, ActiveKey, EndpointAddr,
         ValidateServer, FindIn, UpsertIn, PublicKey, Edited, FormShaped, ParseDns, ParseAddresses, PeerFields, InfoOf;
    assert Filled(Opened(DetailOf(s))) by {
      SentWasFilled(number, Opened(DetailOf(s)));
    }
    UntouchedEditIff(number, s);
    UntouchedIsSent(number, s);
    assert Trim(spec.name) == s.name && s.name != "" by {
      assert Trimmed(s.name) by { ShapedName(s); }
      TrimFixpoint(s.name);
      TrimTwice(s.name);
    }
    var blank := s.(resolvedEndpoint := None);
    assert Edited(spec, s) == blank;
    SameFields(lib, s, blank);
    ValidateExactly(lib, blank, ext.answer);
    assert ValidateServer(lib, blank, ext.answer) == Ok(found);
    var cached := s.(resolvedEndpoint := Some(lib.showSocket(found)));
    assert blank.(resolvedEndpoint := Some(lib.showSocket(found))) == cached;
    UpsertLookup(d.servers, cached, other);
    assert PublicKey(lib, s.privateKey).Some? by {
      WellFormedKey(lib, s);
    }
  }

  // --- what a form stores ------------------------------------------------------

  /** The number that a field's text denotes; a blank field denotes none. */
  predicate Denotes(number: NumberReader, text: string, n: Option<nat>) {
    if Trim(text) == "" then n.None? else n.Some? && number(Trim(text)) == Some(n.value)
  }

  /** A whole number, or nothing. */
  predicate IsWhole(number: NumberReader, text: string) {
    Trim(text) == "" || (number(Trim(text)).Some? && number(Trim(text)).value >= 0)
  }

  /** A form is sent exactly when the four required fields are not blank, a key is pasted if one is to be imported, and
      every number field is blank or a whole number that is not negative; otherwise the first of these that fails is
      what is shown. */
  lemma FormIsSentIff(number: NumberReader, f: Fields)
    ensures var filled := Trim(f.name) != "" && Trim(f.publicKey) != "" && Trim(f.endpoint) != ""
                          && Trim(f.addresses) != "";
            var keyed := f.keyMode == ImportKey ==> Trim(f.privateKey) != "";
            var whole := IsWhole(number, f.keepalive) && IsWhole(number, f.listenPort) && IsWhole(number, f.mtu);
            && (DraftOf(number, f).Ok? <==> filled && keyed && whole)
            && (DraftOf(number, f) == Err(Required) <==> !filled)
            && (DraftOf(number, f) == Err(PasteKey) <==> filled && !keyed)
            && (DraftOf(number, f) == Err(NotWhole) <==> filled && keyed && !whole)
  {
    hide Trim, Csv;
  }

  /** The stored tunnel has what the form says, secrets aside. */
  predicate StoredFromForm(number: NumberReader, f: Fields, s: ServerConfig) {
    && s.name == Trim(f.name) && s.publicKey == Trim(f.publicKey) && s.endpoint == Trim(f.endpoint)
    && s.addresses == Csv(f.addresses) && s.allowedIps == Csv(f.allowedIps) && s.dns == Csv(f.dns)
    && Denotes(number, f.listenPort, if Trim(f.listenPort) == "" then None else Some(s.listenPort))
    && (Trim(f.listenPort) == "" ==> s.listenPort == 0)
    && Denotes(number, f.mtu, s.mtu) && Denotes(number, f.keepalive, s.keepalive)
  }

  /** The request that a form sends names the tunnel of its name field and carries its fields. */
  lemma FormIsCarried(number: NumberReader, f: Fields, draft: Draft, spec: ServerSpec, s: ServerConfig)
    requires DraftOf(number, f) == Ok(draft) && SpecOfDraft(draft) == Some(spec) && TakenFrom(spec, s)
    ensures StoredFromForm(number, f, s)
  {
    hide Trim, Csv;
    TrimTwice(f.name);
  }

  lemma FormSecrets(number: NumberReader, f: Fields, draft: Draft, spec: ServerSpec)
    requires DraftOf(number, f) == Ok(draft) && SpecOfDraft(draft) == Some(spec)
    ensures spec.name == Trim(f.name)
    ensures if f.keyMode == ImportKey then spec.privateKey == Some(Trim(f.privateKey)) && Trim(f.privateKey) != ""
            else spec.privateKey.None?
    ensures spec.presharedKey == if Trim(f.presharedKey) == "" then None else Some(Trim(f.presharedKey))
  {
    hide Trim, Csv, NumOrNull;
  }

  /** A form saved over a stored tunnel, when the answer is the list: the stored tunnel has the form's fields; a key
      that was pasted replaces the private key, and any other choice keeps it; a preshared key that was typed replaces
      the one before, and a blank field keeps it. */
  lemma SavingStoresTheForm(lib: Lib, env: Oracle, number: NumberReader, d: DState, f: Fields, draft: Draft,
                            spec: ServerSpec, ext: Ext, d': DState, infos: seq<ServerInfo>)
    returns (was: ServerConfig, s: ServerConfig)
    requires DraftOf(number, f) == Ok(draft) && SpecOfDraft(draft) == Some(spec)
    requires Handle(lib, env, d, EditServer(spec), ext) == (d', ServerList(infos))
    ensures FindIn(d.servers, Trim(f.name)) == Some(was) && FindIn(d'.servers, Trim(f.name)) == Some(s)
    ensures StoredFromForm(number, f, s)
    ensures s.privateKey == if f.keyMode == ImportKey then Trim(f.privateKey) else was.privateKey
    ensures s.presharedKey == if Trim(f.presharedKey) == "" then was.presharedKey else Some(Trim(f.presharedKey))
  {
    hide Trim, Handle, DraftOf, SpecOfDraft, FindIn, TakenFrom, StoredFromForm;
    was, s := EditStores(lib, env, d, spec, ext, d', infos, "");
    FormIsCarried(number, f, draft, spec, s);
    FormSecrets(number, f, draft, spec);
    TrimTwice(f.name);
    TrimTwice(f.privateKey);
    TrimTwice(f.presharedKey);
  }

  /** A form for a new tunnel, when the answer is the list: the tunnel has the form's fields, the pasted private key or
      else a generated one, and the preshared key that was typed, if any. */
  lemma AddingStoresTheForm(lib: Lib, env: Oracle, number: NumberReader, d: DState, f: Fields, draft: Draft,
                            spec: ServerSpec, ext: Ext, d': DState, infos: seq<ServerInfo>)
    returns (s: ServerConfig)
    requires DraftOf(number, f) == Ok(draft) && SpecOfDraft(draft) == Some(spec)
    requires Handle(lib, env, d, AddServer(spec), ext) == (d', ServerList(infos))
    ensures FindIn(d'.servers, Trim(f.name)) == Some(s) && StoredFromForm(number, f, s)
    ensures s.privateKey == if f.keyMode == ImportKey then Trim(f.privateKey) else ext.freshKey
    ensures s.presharedKey == if Trim(f.presharedKey) == "" then None else Some(Trim(f.presharedKey))
  {
    hide Trim, Handle, DraftOf, SpecOfDraft, FindIn, TakenFrom, StoredFromForm;
    s := AddStores(lib, env, d, spec, ext, d', infos, "");
    FormIsCarried(number, f, draft, spec, s);
    FormSecrets(number, f, draft, spec);
    TrimTwice(f.name);
    TrimTwice(f.privateKey);
  }

  // --- small steps -------------------------------------------------------------

  lemma SentWasFilled(number: NumberReader, f: Fields)
    requires DraftOf(number, f).Ok?
    ensures Filled(f)
  {
    hide Trim, NumOrNull, Csv;
  }

  lemma ShapedName(s: ServerConfig)
    requires FormShaped(s)
    ensures Trimmed(s.name)
  {
  }

  lemma WellFormedKey(lib: Lib, s: ServerConfig)
    requires WellFormed(lib, s)
    ensures PublicKey(lib, s.privateKey).Some?
  {
    hide Trim;
  }
}
