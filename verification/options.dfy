/**
 * The deployment options as the caller hands them in, and the normalised
 * options that the file store and the transport manager receive.
 */
module DeployOptions {
  import opened Wrappers
  import opened JsValues

  /** `conn`. `useStrictSSL` is `None` when the object has no such key at all. */
  datatype Conn = Conn(server: JsValue, client: JsValue, useStrictSSL: Option<JsValue>, proxy: JsValue)

  /** `auth`. */
  datatype Auth = Auth(user: JsValue, pwd: JsValue)

  /**
   * `ui5`. The BSP container name is a string: the validator calls string
   * methods on it without a guard.
   */
  datatype Ui5 = Ui5(
    language: JsValue,
    transportno: JsValue,
    package: JsValue,
    bspcontainer: string,
    bspcontainerText: JsValue,
    createTransport: JsValue,
    transportText: JsValue,
    transportUseUserMatch: JsValue,
    transportUseLocked: JsValue,
    calcAppindex: JsValue)

  /** The caller's options; `auth` is `None` when missing or falsy. */
  datatype Options = Options(conn: Conn, auth: Option<Auth>, ui5: Ui5)

  datatype StoreConn = StoreConn(server: JsValue, client: JsValue, useStrictSSL: JsValue, proxy: JsValue)

  datatype StoreAuth = StoreAuth(user: JsValue, pwd: JsValue)

  /**
   * The `ui5` part of the file-store options: language resolved, flags
   * coerced to booleans, and no transport text at all.
   */
  datatype StoreUi5 = StoreUi5(
    language: string,
    transportno: JsValue,
    package: JsValue,
    bspcontainer: string,
    bspcontainerText: JsValue,
    transportUseUserMatch: bool,
    transportUseLocked: bool,
    createTransport: bool,
    calcAppindex: bool)

  datatype FileStoreOptions = FileStoreOptions(conn: StoreConn, auth: StoreAuth, ui5: StoreUi5)
  {
    /** The same options with the transport number replaced. */
    function WithTransport(t: JsValue): (f: FileStoreOptions)
      ensures f.ui5.transportno == t
      ensures f.(ui5 := f.ui5.(transportno := ui5.transportno)) == this
    {
      this.(ui5 := ui5.(transportno := t))
    }
  }

  /**
   * The defaults applied to a copy of the caller's options before they are
   * checked: a falsy language becomes "EN", and a missing `useStrictSSL`
   * key becomes `true`. Nothing else changes.
   */
  function Adapt(o: Options): (a: Options)
    ensures Truthy(a.ui5.language)
    ensures Truthy(o.ui5.language) ==> a.ui5.language == o.ui5.language
    ensures !Truthy(o.ui5.language) ==> a.ui5.language == Str("EN")
    ensures a.conn.useStrictSSL.Some?
    ensures o.conn.useStrictSSL.Some? ==> a.conn.useStrictSSL == o.conn.useStrictSSL
    ensures o.conn.useStrictSSL.None? ==> a.conn.useStrictSSL == Some(Bool(true))
    ensures a.(conn := a.conn.(useStrictSSL := o.conn.useStrictSSL),
               ui5 := a.ui5.(language := o.ui5.language)) == o
  {
    var ui5 := if Truthy(o.ui5.language) then o.ui5 else o.ui5.(language := Str("EN"));
    var conn := if o.conn.useStrictSSL.Some? then o.conn else o.conn.(useStrictSSL := Some(Bool(true)));
    o.(conn := conn, ui5 := ui5)
  }

  /** Applying the defaults a second time changes nothing. */
  lemma AdaptIdempotent(o: Options)
    ensures Adapt(Adapt(o)) == Adapt(o)
  {
  }

  /** `toUpperCase` is only defined on the language when it is a string. */
  predicate LanguageUsable(o: Options)
  {
    Truthy(o.ui5.language) ==> o.ui5.language.Str?
  }

  /**
   * The file-store options built from the caller's options once they have
   * passed validation: language defaulted and upper-cased, `useStrictSSL`
   * defaulted only when absent, the four flags coerced with `!!`, the
   * target fields copied, and the transport text dropped.
   */
  function Normalize(o: Options): (f: FileStoreOptions)
    requires o.auth.Some?
    requires LanguageUsable(o)
    ensures Truthy(o.ui5.language) ==> f.ui5.language == ToUpperCase(o.ui5.language.s)
    ensures !Truthy(o.ui5.language) ==> f.ui5.language == "EN"
    ensures f.ui5.language != "" && IsUpperCase(f.ui5.language)
    ensures o.conn.useStrictSSL.None? ==> f.conn.useStrictSSL == Bool(true)
    ensures o.conn.useStrictSSL.Some? ==> f.conn.useStrictSSL == o.conn.useStrictSSL.value
    ensures f.ui5.transportUseUserMatch <==> Truthy(o.ui5.transportUseUserMatch)
    ensures f.ui5.transportUseLocked <==> Truthy(o.ui5.transportUseLocked)
    ensures f.ui5.createTransport <==> Truthy(o.ui5.createTransport)
    ensures f.ui5.calcAppindex <==> Truthy(o.ui5.calcAppindex)
    ensures f.ui5.transportno == o.ui5.transportno
    ensures f.ui5.package == o.ui5.package
    ensures f.ui5.bspcontainer == o.ui5.bspcontainer
    ensures f.ui5.bspcontainerText == o.ui5.bspcontainerText
    ensures f.conn.server == o.conn.server && f.conn.client == o.conn.client && f.conn.proxy == o.conn.proxy
    ensures f.auth.user == o.auth.value.user && f.auth.pwd == o.auth.value.pwd
  {
    var a := Adapt(o);
    ToUpperCaseNormalises(a.ui5.language.s);
    FileStoreOptions(
      StoreConn(a.conn.server, a.conn.client, a.conn.useStrictSSL.value, a.conn.proxy),
      StoreAuth(a.auth.value.user, a.auth.value.pwd),
      StoreUi5(
        ToUpperCase(a.ui5.language.s),
        a.ui5.transportno,
        a.ui5.package,
        a.ui5.bspcontainer,
        a.ui5.bspcontainerText,
        Truthy(a.ui5.transportUseUserMatch),
        Truthy(a.ui5.transportUseLocked),
        Truthy(a.ui5.createTransport),
        Truthy(a.ui5.calcAppindex)))
  }

  /** The caller's options that a set of file-store options would be read back as. */
  function AsOptions(f: FileStoreOptions): Options
  {
    Options(
      Conn(f.conn.server, f.conn.client, Some(f.conn.useStrictSSL), f.conn.proxy),
      Some(Auth(f.auth.user, f.auth.pwd)),
      Ui5(
        Str(f.ui5.language),
        f.ui5.transportno,
        f.ui5.package,
        f.ui5.bspcontainer,
        f.ui5.bspcontainerText,
        Bool(f.ui5.createTransport),
        Undefined,
        Bool(f.ui5.transportUseUserMatch),
        Bool(f.ui5.transportUseLocked),
        Bool(f.ui5.calcAppindex)))
  }

  /**
   * Normalisation is idempotent: options it produced come back unchanged
   * when they are normalised again.
   */
  lemma NormalizeIdempotent(o: Options)
    requires o.auth.Some?
    requires LanguageUsable(o)
    ensures Normalize(AsOptions(Normalize(o))) == Normalize(o)
  {
    var f := Normalize(o);
    ToUpperCaseNormalises(f.ui5.language);
  }
}
