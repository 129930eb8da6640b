/** The per-request state of the Undertow context
    (io.jooby.internal.utow.UtowContext): the headers, query, form and
    multipart values computed on first use and cached, the aliasing of the
    form to the multipart body, the registry of uploaded files and its
    best-effort clean-up, and the response Content-Type it writes.

    The native exchange is given as values: the request method, the request
    headers, the raw query string and what the two form parsers produce.
    Ghost counters record how often each value was built, so that "at most
    once" can be stated. */
module Utow {
  import opened Common

  /** One value of a parsed form field: a file (its temporary path) or
      text. */
  datatype FormValue = FormValue(isFile: bool, value: string)

  /** One field of the parser's output, with its values in order. */
  datatype FormField = FormField(name: string, values: seq<FormValue>)

  /** An uploaded file: the field it came from and its temporary file. */
  datatype Upload = Upload(name: string, file: string)

  /** What the form holds under a field name. */
  datatype FormItem = Text(text: string) | File(upload: Upload)

  /** A query string: the shared empty one, or one parsed from its source
      text (the parser itself is not part of this model). */
  datatype QueryString = EmptyQuery | ParsedQuery(source: string)

  /** A request header name with its values. */
  datatype Header = Header(name: string, values: seq<string>)

  /** An exception handed to the error handler. */
  datatype Cause = Cause(message: string)

  /** How a call that may throw ends: it returns a value, or it throws
      (the exception itself is not modelled). */
  datatype Outcome<+T> = Returned(value: T) | Threw

  const ContentType: string := "Content-Type"

  /** The form (Formdata) or multipart (Multipart) object: the name/value
      pairs put into it, in order. */
  class Formdata {
    const isMultipart: bool
    var items: seq<(string, FormItem)>

    constructor (isMultipart: bool)
      ensures this.isMultipart == isMultipart && items == []
    {
      this.isMultipart := isMultipart;
      items := [];
    }

    method Put(name: string, item: FormItem)
      modifies this
      ensures items == old(items) + [(name, item)]
    {
      items := items + [(name, item)];
    }
  }

  /** The headers snapshot: one entry per header name, later puts
      overwriting earlier ones. */
  function HeaderSnapshot(hs: seq<Header>): map<string, seq<string>> {
    if hs == [] then map[]
    else HeaderSnapshot(hs[..|hs| - 1])[hs[|hs| - 1].name := hs[|hs| - 1].values]
  }

  predicate DistinctNames(hs: seq<Header>) {
    forall i, j :: 0 <= i < j < |hs| ==> hs[i].name != hs[j].name
  }

  /** The snapshot has exactly the native header names as keys. */
  lemma {:induction false} HeaderSnapshotKeys(hs: seq<Header>)
    ensures HeaderSnapshot(hs).Keys == set h | h in hs :: h.name
  {
    if hs != [] {
      var init, last := hs[..|hs| - 1], hs[|hs| - 1];
      HeaderSnapshotKeys(init);
      assert hs == init + [last];
      assert (set h | h in hs :: h.name) == (set h | h in init :: h.name) + {last.name};
    }
  }

  /** Since the native map holds each name once, each name maps to its
      own values. */
  lemma {:induction false} HeaderSnapshotValues(hs: seq<Header>, i: nat)
    requires DistinctNames(hs) && i < |hs|
    ensures hs[i].name in HeaderSnapshot(hs) && HeaderSnapshot(hs)[hs[i].name] == hs[i].values
  {
    var init, last := hs[..|hs| - 1], hs[|hs| - 1];
    if i < |hs| - 1 {
      assert DistinctNames(init);
      assert hs[i] == init[i] && hs[i].name != last.name;
      HeaderSnapshotValues(init, i);
    }
  }

  /** The snapshot has exactly the native header names as keys and, since
      the native map holds each name once, each name's own values. */
  lemma HeaderSnapshotEntries(hs: seq<Header>)
    ensures HeaderSnapshot(hs).Keys == set h | h in hs :: h.name
    ensures DistinctNames(hs) ==>
      forall i :: 0 <= i < |hs| ==> HeaderSnapshot(hs)[hs[i].name] == hs[i].values
  {
    HeaderSnapshotKeys(hs);
    if DistinctNames(hs) {
      forall i | 0 <= i < |hs| ensures HeaderSnapshot(hs)[hs[i].name] == hs[i].values {
        HeaderSnapshotValues(hs, i);
      }
    }
  }

  /** What query() yields for a raw query string. */
  function QueryOf(raw: string): QueryString {
    if |raw| == 0 then EmptyQuery else ParsedQuery(['?'] + raw)
  }

  /** The empty raw query is exactly the one that gives the shared empty
      query string, and a parsed one is parsed from '?' followed by the raw
      text. The last clause is about this representation only: the query
      parser is not part of this model. */
  lemma QueryOfInjective(a: string, b: string)
    ensures QueryOf(a) == EmptyQuery <==> a == ""
    ensures QueryOf(a).ParsedQuery? ==> QueryOf(a).source[0] == '?' && QueryOf(a).source[1..] == a
    ensures QueryOf(a) == QueryOf(b) ==> a == b
  {
    if QueryOf(a) == QueryOf(b) && a != "" {
      assert a == QueryOf(a).source[1..];
    }
  }

  /** The form item formData puts for one value of the field `name`. */
  function ItemOf(name: string, v: FormValue): FormItem {
    if v.isFile then File(Upload(name, v.value)) else Text(v.value)
  }

  /** The pairs formData puts for one field, in value order. */
  function FieldItems(f: FormField): (r: seq<(string, FormItem)>)
    ensures |r| == |f.values|
    ensures forall i :: 0 <= i < |r| ==> r[i] == (f.name, ItemOf(f.name, f.values[i]))
  {
    seq(|f.values|, i requires 0 <= i < |f.values| => (f.name, ItemOf(f.name, f.values[i])))
  }

  /** The pairs formData puts for all fields, in iteration order. */
  function Flatten(data: seq<FormField>): seq<(string, FormItem)> {
    if data == [] then [] else Flatten(data[..|data| - 1]) + FieldItems(data[|data| - 1])
  }

  /** The uploads formData registers for the values of one field. */
  function FieldUploads(name: string, values: seq<FormValue>): seq<Upload> {
    if values == [] then []
    else
      var v := values[|values| - 1];
      FieldUploads(name, values[..|values| - 1]) + (if v.isFile then [Upload(name, v.value)] else [])
  }

  /** The uploads formData registers, in iteration order. */
  function Uploads(data: seq<FormField>): seq<Upload> {
    if data == [] then []
    else Uploads(data[..|data| - 1]) + FieldUploads(data[|data| - 1].name, data[|data| - 1].values)
  }

  /** The uploads held by a sequence of form items, in order. */
  function FileItems(items: seq<(string, FormItem)>): seq<Upload> {
    if items == [] then []
    else
      var last := items[|items| - 1].1;
      FileItems(items[..|items| - 1]) + (if last.File? then [last.upload] else [])
  }

  lemma {:induction false} FileItemsAppend(a: seq<(string, FormItem)>, b: seq<(string, FormItem)>)
    ensures FileItems(a + b) == FileItems(a) + FileItems(b)
    decreases |b|
  {
    if b != [] {
      var b', last := b[..|b| - 1], b[|b| - 1];
      assert a + b == (a + b') + [last];
      assert (a + b)[..|a + b| - 1] == a + b';
      FileItemsAppend(a, b');
    } else {
      assert a + b == a;
    }
  }

  lemma {:induction false} FieldUploadsAreFileItems(name: string, values: seq<FormValue>)
    ensures FieldUploads(name, values) == FileItems(FieldItems(FormField(name, values)))
  {
    if values != [] {
      var init := values[..|values| - 1];
      FieldUploadsAreFileItems(name, init);
      var items, items' := FieldItems(FormField(name, values)), FieldItems(FormField(name, init));
      assert items[..|items| - 1] == items';
    }
  }

  /** The registered uploads are exactly the file values of the form, in
      the order they were put: every file value is registered, and no text
      value is. */
  lemma {:induction false} RegisteredUploadsAreFormFiles(data: seq<FormField>)
    ensures Uploads(data) == FileItems(Flatten(data))
  {
    if data != [] {
      var init, last := data[..|data| - 1], data[|data| - 1];
      RegisteredUploadsAreFormFiles(init);
      FieldUploadsAreFileItems(last.name, last.values);
      FileItemsAppend(Flatten(init), FieldItems(last));
    }
  }

  /** The upload list: empty until the first register. */
  function Registered(files: Option<seq<Upload>>): seq<Upload> {
    files.GetOr([])
  }

  /** The upload list after registering `us`: still unset when nothing is
      registered. */
  function AfterRegistering(files: Option<seq<Upload>>, us: seq<Upload>): Option<seq<Upload>> {
    if us == [] then files else Some(Registered(files) + us)
  }

  /** Registering in two batches is registering their concatenation. */
  lemma AfterRegisteringTwice(files: Option<seq<Upload>>, a: seq<Upload>, b: seq<Upload>)
    ensures AfterRegistering(AfterRegistering(files, a), b) == AfterRegistering(files, a + b)
  {
    if a == [] {
      assert a + b == b;
    } else if b == [] {
      assert a + b == a;
    } else {
      assert Registered(files) + a + b == Registered(files) + (a + b);
    }
  }

  /** The uploads whose deletion fails, in order: the failures destroy()
      reports. */
  function Failures(us: seq<Upload>, deleteFails: Upload -> bool): seq<Upload> {
    if us == [] then []
    else Failures(us[..|us| - 1], deleteFails) + (if deleteFails(us[|us| - 1]) then [us[|us| - 1]] else [])
  }

  /** A failure does not stop the clean-up (the failure handler being
      taken to swallow the exception): every upload whose deletion fails
      is reported, and only those. */
  lemma {:induction false} FailuresReported(us: seq<Upload>, deleteFails: Upload -> bool)
    ensures forall u :: u in Failures(us, deleteFails) <==> u in us && deleteFails(u)
    ensures |Failures(us, deleteFails)| <= |us|
  {
    if us != [] {
      var init := us[..|us| - 1];
      FailuresReported(init, deleteFails);
      assert us == init + [us[|us| - 1]];
    }
  }

  /** The Content-Type value type(contentType, charset) writes. */
  function ContentTypeValue(contentType: string, charset: Option<string>): string {
    match charset
    case None => contentType
    case Some(cs) => contentType + ";charset=" + cs
  }

  /** The header is the bare content type exactly when no charset is
      given; otherwise the charset can be read back after ";charset=". */
  lemma ContentTypeCharset(contentType: string, charset: Option<string>)
    ensures ContentTypeValue(contentType, charset) == contentType <==> charset.None?
    ensures var v := ContentTypeValue(contentType, charset);
      charset.Some? ==> v[..|contentType|] == contentType && v[|contentType| + 9..] == charset.value
  {
    if charset.Some? {
      assert |ContentTypeValue(contentType, charset)| >= |contentType| + 9;
    }
  }

  class Context {
    /** The native request method, headers and raw query string. */
    const nativeMethod: string
    const requestHeaders: seq<Header>
    const rawQuery: string
    /** What the url-encoded and the multipart parser produce. */
    /** What the url-encoded parser yields; None when parseBlocking throws. */
    const urlEncodedData: Option<seq<FormField>>
    /** What the multipart parser yields; None when parseBlocking throws. */
    const multipartData: Option<seq<FormField>>
    /** Whether requireBlocking() throws on this exchange. */
    const blockingRefused: bool

    var headers: Option<map<string, seq<string>>>
    var query: Option<QueryString>
    var form: Formdata?
    var multipart: Formdata?
    var files: Option<seq<Upload>>
    /** The response headers set through this context. */
    var responseHeaders: map<string, string>
    /** The causes handed to the error handler, in order. */
    var errorsSent: seq<Cause>
    /** The uploads whose failed deletion destroy() reported. */
    var failureReports: seq<Upload>

    ghost var headerBuilds: nat
    ghost var queryParses: nat
    ghost var formParses: nat
    ghost var multipartParses: nat
    /** Every Upload.destroy attempt, in order. */
    ghost var destroyAttempts: seq<Upload>

    /** Each cache, once set, holds the value computed from the exchange and
        was built exactly once; a parsed multipart body is also the form. */
    ghost predicate Valid()
      reads this
    {
      && headerBuilds == (if headers.Some? then 1 else 0)
      && (headers.Some? ==> headers.value == HeaderSnapshot(requestHeaders))
      && queryParses == (if query.Some? then 1 else 0)
      && (query.Some? ==> rawQuery != "" && query.value == QueryOf(rawQuery))
      && multipartParses == (if multipart != null then 1 else 0)
      && (multipart != null ==> form == multipart && multipart.isMultipart)
      && formParses <= 1
      && (form == null ==> formParses == 0)
      && (form != null && multipart == null ==> formParses == 1 && !form.isMultipart)
    }

    /** The caches and their counters, which most operations leave alone. */
    ghost function Caches(): (Option<map<string, seq<string>>>, Option<QueryString>, Formdata?, Formdata?, nat, nat, nat, nat)
      reads this
    {
      (headers, query, form, multipart, headerBuilds, queryParses, formParses, multipartParses)
    }

    /** The response side: headers set, errors sent, clean-up record. */
    ghost function Response(): (map<string, string>, seq<Cause>, seq<Upload>, seq<Upload>)
      reads this
    {
      (responseHeaders, errorsSent, failureReports, destroyAttempts)
    }

    constructor (nativeMethod: string, requestHeaders: seq<Header>, rawQuery: string,
                 urlEncodedData: Option<seq<FormField>>, multipartData: Option<seq<FormField>>,
                 blockingRefused: bool)
      ensures Valid()
      ensures this.nativeMethod == nativeMethod && this.requestHeaders == requestHeaders
      ensures this.rawQuery == rawQuery
      ensures this.urlEncodedData == urlEncodedData && this.multipartData == multipartData
      ensures this.blockingRefused == blockingRefused
      ensures headers.None? && query.None? && form == null && multipart == null && files.None?
      ensures responseHeaders == map[] && errorsSent == [] && failureReports == [] && destroyAttempts == []
    {
      this.nativeMethod := nativeMethod;
      this.requestHeaders := requestHeaders;
      this.rawQuery := rawQuery;
      this.urlEncodedData := urlEncodedData;
      this.multipartData := multipartData;
      this.blockingRefused := blockingRefused;
      headers, query, form, multipart, files := None, None, null, null, None;
      responseHeaders, errorsSent, failureReports := map[], [], [];
      headerBuilds, queryParses, formParses, multipartParses := 0, 0, 0, 0;
      destroyAttempts := [];
    }

    /** method(): the native method upper-cased. */
    function Method(): (m: string)
      ensures NoLowerCase(m) && EqualIgnoringCase(m, nativeMethod)
    {
      ToUpper(nativeMethod)
    }

    /** headers(): the snapshot of the request headers, built on the first
        call and returned from the cache afterwards. */
    method Headers() returns (h: map<string, seq<string>>)
      requires Valid()
      modifies this
      ensures Valid()
      ensures h == HeaderSnapshot(requestHeaders) && headers == Some(h)
      ensures old(headers).Some? ==> h == old(headers).value && headerBuilds == old(headerBuilds)
      ensures query == old(query) && form == old(form) && multipart == old(multipart)
      ensures queryParses == old(queryParses) && formParses == old(formParses)
      ensures multipartParses == old(multipartParses)
      ensures files == old(files) && Response() == old(Response())
    {
      if headers.None? {
        var snapshot: map<string, seq<string>> := map[];
        for i := 0 to |requestHeaders|
          invariant snapshot == HeaderSnapshot(requestHeaders[..i])
        {
          assert requestHeaders[..i + 1][..i] == requestHeaders[..i];
          snapshot := snapshot[requestHeaders[i].name := requestHeaders[i].values];
        }
        assert requestHeaders[..|requestHeaders|] == requestHeaders;
        headers := Some(snapshot);
        headerBuilds := headerBuilds + 1;
      }
      h := headers.value;
    }

    /** query(): the shared empty query string when the raw query is empty,
        leaving the cache unset; otherwise "?" + raw parsed on the first
        call and returned from the cache afterwards. */
    method Query() returns (q: QueryString)
      requires Valid()
      modifies this
      ensures Valid()
      ensures q == QueryOf(rawQuery)
      ensures rawQuery == "" ==> query.None?
      ensures rawQuery != "" ==> query == Some(q)
      ensures old(query).Some? ==> query == old(query) && queryParses == old(queryParses)
      ensures headers == old(headers) && form == old(form) && multipart == old(multipart)
      ensures headerBuilds == old(headerBuilds) && formParses == old(formParses)
      ensures multipartParses == old(multipartParses)
      ensures files == old(files) && Response() == old(Response())
    {
      if query.None? {
        if |rawQuery| == 0 {
          return EmptyQuery;
        }
        query := Some(ParsedQuery(['?'] + rawQuery));
        queryParses := queryParses + 1;
      }
      q := query.value;
    }

    /** register(upload): appends the upload to the list, creating the list
        on first use. */
    method Register(upload: Upload) returns (u: Upload)
      modifies this
      ensures u == upload
      ensures files == Some(Registered(old(files)) + [upload])
      ensures Caches() == old(Caches()) && Response() == old(Response())
    {
      if files.None? {
        files := Some([]);
      }
      files := Some(files.value + [upload]);
      u := upload;
    }

    /** The inner loop of formData: every value of one field, put under the
        field name, files registered first. */
    method PutField(target: Formdata, field: FormField)
      modifies this, target
      ensures target.items == old(target.items) + FieldItems(field)
      ensures files == AfterRegistering(old(files), FieldUploads(field.name, field.values))
      ensures Caches() == old(Caches()) && Response() == old(Response())
    {
      for j := 0 to |field.values|
        invariant target.items == old(target.items) + FieldItems(field)[..j]
        invariant files == AfterRegistering(old(files), FieldUploads(field.name, field.values[..j]))
        invariant Caches() == old(Caches()) && Response() == old(Response())
      {
        var value := field.values[j];
        assert field.values[..j + 1][..j] == field.values[..j];
        AfterRegisteringTwice(old(files), FieldUploads(field.name, field.values[..j]),
                              if value.isFile then [Upload(field.name, value.value)] else []);
        if value.isFile {
          var upload := Register(Upload(field.name, value.value));
          target.Put(field.name, File(upload));
        } else {
          target.Put(field.name, Text(value.value));
        }
        assert FieldItems(field)[..j + 1] == FieldItems(field)[..j] + [FieldItems(field)[j]];
      }
      assert field.values[..|field.values|] == field.values;
    }

    /** formData(form, data): every value of every field put into the form
        in iteration order, each file value also registered. */
    method FormData(target: Formdata, data: seq<FormField>)
      modifies this, target
      ensures target.items == old(target.items) + Flatten(data)
      ensures files == AfterRegistering(old(files), Uploads(data))
      ensures Caches() == old(Caches()) && Response() == old(Response())
    {
      var i := 0;
      while i < |data|
        invariant 0 <= i <= |data|
        invariant target.items == old(target.items) + Flatten(data[..i])
        invariant files == AfterRegistering(old(files), Uploads(data[..i]))
        invariant Caches() == old(Caches()) && Response() == old(Response())
      {
        assert data[..i + 1][..i] == data[..i];
        AfterRegisteringTwice(old(files), Uploads(data[..i]), FieldUploads(data[i].name, data[i].values));
        PutField(target, data[i]);
        i := i + 1;
      }
      assert data[..|data|] == data;
    }

    /** form(): the url-encoded form, created and cached on the first call
        before the parser runs, then filled; returned from the cache
        afterwards, also when multipart() has already set it. When the
        parser throws, the call throws and the empty form stays cached. */
    method Form() returns (r: Outcome<Formdata>)
      requires Valid()
      modifies this
      ensures Valid()
      ensures form != null
      ensures old(form) != null ==>
        r == Returned(old(form)) && form == old(form) && formParses == old(formParses) && files == old(files)
      ensures old(form) == null ==>
        && fresh(form) && !form.isMultipart && formParses == 1
        && (urlEncodedData.Some? ==>
              && r == Returned(form) && form.items == Flatten(urlEncodedData.value)
              && files == AfterRegistering(old(files), Uploads(urlEncodedData.value)))
        && (urlEncodedData.None? ==> r == Threw && form.items == [] && files == old(files))
      ensures multipart == old(multipart) && multipartParses == old(multipartParses)
      ensures headers == old(headers) && query == old(query)
      ensures headerBuilds == old(headerBuilds) && queryParses == old(queryParses)
      ensures Response() == old(Response())
    {
      if form == null {
        var created := new Formdata(false);
        form := created;
        formParses := formParses + 1;
        if urlEncodedData.None? {
          return Threw;
        }
        FormData(created, urlEncodedData.value);
      }
      r := Returned(form);
    }

    /** multipart(): throws first when blocking is refused. Otherwise the
        multipart body is created on the first call, made the form as well
        and cached before the parser runs, then filled; returned from the
        cache afterwards. When the parser throws, the call throws and the
        empty multipart object stays cached as both. */
    method Multipart() returns (r: Outcome<Formdata>)
      requires Valid()
      modifies this
      ensures Valid()
      ensures blockingRefused ==> r == Threw && Caches() == old(Caches()) && files == old(files)
      ensures !blockingRefused ==> multipart != null && form == multipart
      ensures !blockingRefused && old(multipart) != null ==>
        r == Returned(old(multipart)) && multipart == old(multipart)
        && multipartParses == old(multipartParses) && files == old(files)
      ensures !blockingRefused && old(multipart) == null ==>
        && fresh(multipart) && multipart.isMultipart && multipartParses == 1
        && (multipartData.Some? ==>
              && r == Returned(multipart) && multipart.items == Flatten(multipartData.value)
              && files == AfterRegistering(old(files), Uploads(multipartData.value)))
        && (multipartData.None? ==> r == Threw && multipart.items == [] && files == old(files))
      ensures formParses == old(formParses)
      ensures headers == old(headers) && query == old(query)
      ensures headerBuilds == old(headerBuilds) && queryParses == old(queryParses)
      ensures Response() == old(Response())
    {
      if blockingRefused {
        return Threw;
      }
      if multipart == null {
        var created := new Formdata(true);
        multipart := created;
        form := created;
        multipartParses := multipartParses + 1;
        if multipartData.None? {
          return Threw;
        }
        FormData(created, multipartData.value);
      }
      r := Returned(multipart);
    }

    /** destroy(): when uploads were registered, tries to delete each in
        order; a failed deletion is reported and the loop goes on. This
        takes the failure handler to swallow the exception after printing
        it. */
    method Destroy(deleteFails: Upload -> bool)
      modifies this
      ensures destroyAttempts == old(destroyAttempts) + Registered(files)
      ensures failureReports == old(failureReports) + Failures(Registered(files), deleteFails)
      ensures Caches() == old(Caches()) && files == old(files)
      ensures responseHeaders == old(responseHeaders) && errorsSent == old(errorsSent)
    {
      if files.Some? {
        var uploads := files.value;
        for i := 0 to |uploads|
          invariant destroyAttempts == old(destroyAttempts) + uploads[..i]
          invariant failureReports == old(failureReports) + Failures(uploads[..i], deleteFails)
          invariant Caches() == old(Caches()) && files == old(files)
          invariant responseHeaders == old(responseHeaders) && errorsSent == old(errorsSent)
        {
          assert uploads[..i + 1][..i] == uploads[..i];
          destroyAttempts := destroyAttempts + [uploads[i]];
          if deleteFails(uploads[i]) {
            failureReports := failureReports + [uploads[i]];
          }
        }
        assert uploads[..|uploads|] == uploads;
      }
    }

    /** type(contentType, charset): sets the response Content-Type and
        returns this context. */
    method Type(contentType: string, charset: Option<string>) returns (self: Context)
      modifies this
      ensures self == this
      ensures responseHeaders == old(responseHeaders)[ContentType := ContentTypeValue(contentType, charset)]
      ensures Caches() == old(Caches()) && files == old(files)
      ensures errorsSent == old(errorsSent) && failureReports == old(failureReports)
      ensures destroyAttempts == old(destroyAttempts)
    {
      if charset.None? {
        responseHeaders := responseHeaders[ContentType := contentType];
      } else {
        responseHeaders := responseHeaders[ContentType := contentType + ";charset=" + charset.value];
      }
      self := this;
    }

    /** sendError(cause): hands the cause to the error handler and returns
        this context. */
    method SendError(cause: Cause) returns (self: Context)
      modifies this
      ensures self == this
      ensures errorsSent == old(errorsSent) + [cause]
      ensures Caches() == old(Caches()) && files == old(files)
      ensures responseHeaders == old(responseHeaders) && failureReports == old(failureReports)
      ensures destroyAttempts == old(destroyAttempts)
    {
      errorsSent := errorsSent + [cause];
      self := this;
    }
  }

  /** After multipart(), form() returns the multipart object itself and
      parses nothing more, even when the multipart parse threw; neither
      body is ever parsed twice. */
  method FormAfterMultipart(c: Context) returns (m: Outcome<Formdata>, f: Outcome<Formdata>)
    requires c.Valid()
    modifies c
    ensures c.blockingRefused ==> m == Threw
    ensures !c.blockingRefused ==>
      && f == Returned(c.multipart) && c.multipart.isMultipart
      && (m.Returned? ==> m == f)
      && c.formParses == old(c.formParses) && c.multipartParses == 1
    ensures c.formParses <= 1
  {
    m := c.Multipart();
    f := c.Form();
  }

  /** Asking for the form twice parses it at most once, and the second call
      returns the cached object. When the first parse throws, the second
      call returns the empty form the first one cached, without parsing
      again. */
  method FormTwice(c: Context) returns (f1: Outcome<Formdata>, f2: Outcome<Formdata>)
    requires c.Valid()
    modifies c
    ensures f2 == Returned(c.form) && c.formParses <= 1
    ensures f1.Returned? ==> f1 == f2
    ensures old(c.form) == null ==> c.formParses == 1
    ensures old(c.form) == null && c.urlEncodedData.None? ==>
      f1 == Threw && fresh(c.form) && !c.form.isMultipart && c.form.items == []
  {
    f1 := c.Form();
    f2 := c.Form();
  }
}
