/** The javadoc inline macro of the documentation build
    (io.jooby.adoc.JavadocProcessor): from a dotted class name and the macro
    attributes it builds the link into the published javadoc and the text
    shown for it. `Javadoc` states the result declaratively; `Process` is
    the step-by-step builder and is proved to produce it. */
module Javadoc {
  import opened Common

  const JavadocSite: string := "https://static.javadoc.io/io.jooby/jooby/"

  /** The link target and the display text of one macro use. */
  datatype Link = Link(target: string, text: string)

  function Digit(d: nat): (c: char)
    requires d < 10
  {
    ('0' as int + d) as char
  }

  /** String.valueOf(n): the decimal digits of n. */
  function DecimalString(n: nat): (s: string)
    ensures |s| >= 1
    ensures n >= 10 ==> |s| >= 2
  {
    if n < 10 then [Digit(n)] else DecimalString(n / 10) + [Digit(n % 10)]
  }

  /** Different numbers have different decimal strings, so the attribute
      keys "2", "3", ... are all distinct. */
  lemma {:induction false} DecimalStringInjective(a: nat, b: nat)
    ensures DecimalString(a) == DecimalString(b) ==> a == b
  {
    var s, t := DecimalString(a), DecimalString(b);
    if s == t {
      if a >= 10 && b >= 10 {
        assert s[|s| - 1] == Digit(a % 10) && t[|t| - 1] == Digit(b % 10);
        assert s[..|s| - 1] == DecimalString(a / 10);
        assert t[..|t| - 1] == DecimalString(b / 10);
        DecimalStringInjective(a / 10, b / 10);
      } else if a < 10 && b < 10 {
        assert s[0] == Digit(a) && t[0] == Digit(b);
      }
    }
  }

  /** The '.'-separated pieces of `s`, empty ones included. */
  function Pieces(s: string): (r: seq<string>)
    ensures |r| >= 1
  {
    if |s| == 0 then [""]
    else if s[0] == '.' then [""] + Pieces(s[1..])
    else
      var rest := Pieces(s[1..]);
      [[s[0]] + rest[0]] + rest[1..]
  }

  function DropTrailingEmpty(r: seq<string>): (d: seq<string>)
    ensures |d| <= |r| && d == r[..|d|]
    ensures |d| == 0 || d[|d| - 1] != ""
  {
    if |r| > 0 && r[|r| - 1] == "" then DropTrailingEmpty(r[..|r| - 1]) else r
  }

  /** String.split("\\."): the pieces with trailing empty ones removed;
      the empty string splits into one empty piece. */
  function JavaSplit(s: string): (r: seq<string>)
    ensures s != "" ==> |r| == 0 || r[|r| - 1] != ""
  {
    if s == "" then [""] else DropTrailingEmpty(Pieces(s))
  }

  /** Every dot-segment of `clazz` can be classified by its first character
      (`charAt(0)` throws on an empty segment). */
  predicate SegmentsNonEmpty(segs: seq<string>) {
    forall i :: 0 <= i < |segs| ==> segs[i] != ""
  }

  /** The inputs for which `process` returns: non-empty segments and a
      non-empty first argument when there is one. */
  predicate ValidInput(clazz: string, attributes: map<string, string>) {
    SegmentsNonEmpty(JavaSplit(clazz)) && ("1" in attributes ==> attributes["1"] != "")
  }

  predicate StartsUpper(seg: string) {
    |seg| > 0 && IsAsciiUpper(seg[0])
  }

  /** The segments that form the class name, in order. */
  function ClassSegments(segs: seq<string>): seq<string> {
    if segs == [] then []
    else ClassSegments(segs[..|segs| - 1]) + (if StartsUpper(segs[|segs| - 1]) then [segs[|segs| - 1]] else [])
  }

  /** The segments that form the package path, in order. */
  function PackageSegments(segs: seq<string>): seq<string> {
    if segs == [] then []
    else PackageSegments(segs[..|segs| - 1]) + (if StartsUpper(segs[|segs| - 1]) then [] else [segs[|segs| - 1]])
  }

  /** The page of the class: site, version, the package path with a
      trailing '/' when there is one, the class name and ".html". */
  function ClassPage(version: string, segs: seq<string>): string {
    var pkg := PackageSegments(segs);
    JavadocSite + version + "/io/jooby/"
      + (if |pkg| > 0 then Join(pkg, "/") + "/" else "")
      + Join(ClassSegments(segs), ".") + ".html"
  }

  /** The attribute values under "i", "i+1", ... up to the first missing key. */
  function TypeArgs(attributes: map<string, string>, i: nat): seq<string>
    decreases |attributes|
  {
    var key := DecimalString(i);
    if key in attributes then
      assert |attributes - {key}| < |attributes| by {
        assert (attributes - {key}).Keys == attributes.Keys - {key};
      }
      [attributes[key]] + TypeArgs(attributes - {key}, i + 1)
    else []
  }

  /** The position of the last `c` in `s`, -1 when there is none. */
  function LastIndexOf(s: string, c: char): (r: int)
    ensures -1 <= r < |s|
  {
    if |s| == 0 then -1
    else if s[|s| - 1] == c then |s| - 1
    else LastIndexOf(s[..|s| - 1], c)
  }

  /** lastIndexOf finds the last occurrence, and -1 exactly when there is
      none. */
  lemma {:induction false} LastIndexOfFinds(s: string, c: char)
    ensures var r := LastIndexOf(s, c);
      && (r >= 0 ==> s[r] == c)
      && (forall j :: r < j < |s| ==> s[j] != c)
      && (r == -1 <==> c !in s)
  {
    if |s| > 0 && s[|s| - 1] != c {
      LastIndexOfFinds(s[..|s| - 1], c);
      assert s == s[..|s| - 1] + [s[|s| - 1]];
    }
  }

  /** The simple name shown for a parameter type: what follows the last '.'
      when that '.' is past the first position, else the whole string. */
  function SimpleName(qualified: string): string {
    var start := LastIndexOf(qualified, '.');
    if start > 0 then qualified[start + 1..] else qualified
  }

  function SimpleNames(types: seq<string>): (r: seq<string>)
    ensures |r| == |types|
  {
    if types == [] then [] else SimpleNames(types[..|types| - 1]) + [SimpleName(types[|types| - 1])]
  }

  predicate IsMethodName(arg: string) {
    |arg| > 0 && IsAsciiLower(arg[0])
  }

  /** An enum constant or static field: upper-case letters and '_' only. */
  predicate IsConstantName(arg: string) {
    forall i :: 0 <= i < |arg| ==> IsAsciiUpper(arg[i]) || arg[i] == '_'
  }

  function TextOr(attributes: map<string, string>, default: string): string {
    if "text" in attributes then attributes["text"] else default
  }

  /** The link and text `process` hands to the phrase node: the class page
      followed by the anchor the first argument asks for. */
  function Javadoc(version: string, clazz: string, attributes: map<string, string>): Link {
    var segs := JavaSplit(clazz);
    Anchored(ClassPage(version, segs), Join(ClassSegments(segs), "."), attributes)
  }

  /** A method name gets "#name-types-" and the text "name(simple names)";
      a constant gets "#NAME" and the "text" attribute or the name; anything
      else no anchor and the "text" attribute, else the argument, else the
      class name. */
  function Anchored(page: string, classname: string, attributes: map<string, string>): Link {
    if "1" in attributes && IsMethodName(attributes["1"]) then
      var m := attributes["1"];
      var types := TypeArgs(attributes, 2);
      Link(page + "#" + m + "-" + Join(types, ",") + "-",
           m + "(" + Join(SimpleNames(types), ",") + ")")
    else if "1" in attributes && IsConstantName(attributes["1"]) then
      Link(page + "#" + attributes["1"], TextOr(attributes, attributes["1"]))
    else
      Link(page, TextOr(attributes, if "1" in attributes then attributes["1"] else classname))
  }

  /** The for loop of `process` that sorts the segments into the package
      path and the class name, keeping their order. */
  method PartitionSegments(names: seq<string>) returns (pkg: seq<string>, nameList: seq<string>)
    requires SegmentsNonEmpty(names)
    ensures pkg == PackageSegments(names) && nameList == ClassSegments(names)
  {
    pkg, nameList := [], [];
    for i := 0 to |names|
      invariant pkg == PackageSegments(names[..i])
      invariant nameList == ClassSegments(names[..i])
    {
      assert names[..i + 1][..i] == names[..i];
      if IsAsciiUpper(names[i][0]) {
        nameList := nameList + [names[i]];
      } else {
        pkg := pkg + [names[i]];
      }
    }
    assert names[..|names|] == names;
  }

  /** The attribute keys "lo", ..., "hi-1". */
  ghost function KeysBetween(lo: nat, hi: nat): set<string>
    decreases hi
  {
    if hi <= lo then {} else KeysBetween(lo, hi - 1) + {DecimalString(hi - 1)}
  }

  lemma {:induction false} KeysBetweenExcludes(lo: nat, hi: nat, j: nat)
    requires j >= hi
    ensures DecimalString(j) !in KeysBetween(lo, hi)
    decreases hi
  {
    if hi > lo {
      KeysBetweenExcludes(lo, hi - 1, j);
      DecimalStringInjective(j, hi - 1);
    }
  }

  /** One more round of the type loop: the key "index" is still unread, and
      reading it leaves the rest of the list to the keys after it. */
  lemma TypeArgsStep(attributes: map<string, string>, index: nat)
    requires index >= 2 && DecimalString(index) in attributes
    ensures var rest, rest' := attributes - KeysBetween(2, index), attributes - KeysBetween(2, index + 1);
      && |rest'| < |rest|
      && TypeArgs(rest, index) == [attributes[DecimalString(index)]] + TypeArgs(rest', index + 1)
  {
    var key := DecimalString(index);
    var rest, rest' := attributes - KeysBetween(2, index), attributes - KeysBetween(2, index + 1);
    KeysBetweenExcludes(2, index, index);
    assert key in rest && rest[key] == attributes[key];
    assert rest - {key} == rest';
    assert rest'.Keys == rest.Keys - {key};
  }

  lemma TypeArgsStop(attributes: map<string, string>, index: nat)
    requires DecimalString(index) !in attributes
    ensures TypeArgs(attributes - KeysBetween(2, index), index) == []
  {
  }

  /** A ','-separated list under construction: the parts so far, and a
      ',' already appended when another part is known to follow. */
  function Pending(head: string, parts: seq<string>, more: bool): string {
    head + Join(parts, ",") + (if parts != [] && more then "," else "")
  }

  lemma PendingStep(head: string, parts: seq<string>, part: string, more: bool)
    ensures Pending(head, parts, true) + part + (if more then "," else "")
         == Pending(head, parts + [part], more)
  {
    JoinSnoc(parts, ",", part);
  }

  lemma PendingDone(head: string, parts: seq<string>)
    ensures Pending(head, parts, false) == head + Join(parts, ",")
  {
  }

  lemma SimpleNamesSnoc(types: seq<string>, t: string)
    ensures SimpleNames(types + [t]) == SimpleNames(types) + [SimpleName(t)]
  {
    assert (types + [t])[..|types|] == types;
  }

  /** What the type loop has built after reading the types `types`, with
      the key "index" to be tried next. */
  ghost predicate TypeLoop(attributes: map<string, string>, link0: string, text0: string,
                           index: nat, types: seq<string>, link: string, text: string)
  {
    var more := DecimalString(index) in attributes;
    && index >= 2
    && TypeArgs(attributes, 2) == types + TypeArgs(attributes - KeysBetween(2, index), index)
    && link == Pending(link0, types, more)
    && text == Pending(text0, SimpleNames(types), more)
  }

  /** The TypeArgs half of one round of the type loop. */
  lemma TypeArgsAdvance(attributes: map<string, string>, index: nat, types: seq<string>)
    requires index >= 2 && DecimalString(index) in attributes
    requires TypeArgs(attributes, 2) == types + TypeArgs(attributes - KeysBetween(2, index), index)
    ensures TypeArgs(attributes, 2)
         == (types + [attributes[DecimalString(index)]]) + TypeArgs(attributes - KeysBetween(2, index + 1), index + 1)
    ensures |attributes - KeysBetween(2, index + 1)| < |attributes - KeysBetween(2, index)|
  {
    TypeArgsStep(attributes, index);
    var t := attributes[DecimalString(index)];
    var later := TypeArgs(attributes - KeysBetween(2, index + 1), index + 1);
    assert types + ([t] + later) == (types + [t]) + later;
  }

  lemma TypeLoopStep(attributes: map<string, string>, link0: string, text0: string,
                     index: nat, types: seq<string>, link: string, text: string)
    requires TypeLoop(attributes, link0, text0, index, types, link, text)
    requires DecimalString(index) in attributes
    ensures var t := attributes[DecimalString(index)];
      var more := DecimalString(index + 1) in attributes;
      var sep := if more then "," else "";
      && TypeLoop(attributes, link0, text0, index + 1, types + [t],
                  link + t + sep, text + SimpleName(t) + sep)
      && |attributes - KeysBetween(2, index + 1)| < |attributes - KeysBetween(2, index)|
  {
    var t := attributes[DecimalString(index)];
    var more := DecimalString(index + 1) in attributes;
    TypeArgsAdvance(attributes, index, types);
    PendingStep(link0, types, t, more);
    PendingStep(text0, SimpleNames(types), SimpleName(t), more);
    SimpleNamesSnoc(types, t);
  }

  lemma TypeLoopDone(attributes: map<string, string>, link0: string, text0: string,
                     index: nat, types: seq<string>, link: string, text: string)
    requires TypeLoop(attributes, link0, text0, index, types, link, text)
    requires DecimalString(index) !in attributes
    ensures types == TypeArgs(attributes, 2)
    ensures link == link0 + Join(types, ",") && text == text0 + Join(SimpleNames(types), ",")
  {
    TypeArgsStop(attributes, index);
    PendingDone(link0, types);
    PendingDone(text0, SimpleNames(types));
  }

  /** The while loop of `process` that appends the parameter types read from
      the attributes "2", "3", ... to the link, and their simple names to the
      text, both separated by ','. */
  method AppendTypeArgs(attributes: map<string, string>, link0: string, text0: string)
    returns (link: string, text: string)
    ensures link == link0 + Join(TypeArgs(attributes, 2), ",")
    ensures text == text0 + Join(SimpleNames(TypeArgs(attributes, 2)), ",")
  {
    link, text := link0, text0;
    var index := 2;
    ghost var types := [];
    assert attributes - KeysBetween(2, 2) == attributes;
    while DecimalString(index) in attributes
      invariant TypeLoop(attributes, link0, text0, index, types, link, text)
      decreases |attributes - KeysBetween(2, index)|
    {
      TypeLoopStep(attributes, link0, text0, index, types, link, text);
      var qualifiedType := attributes[DecimalString(index)];
      link := link + qualifiedType;
      var simpleName := SimpleName(qualifiedType);
      text := text + simpleName;
      types := types + [qualifiedType];
      index := index + 1;
      if DecimalString(index) in attributes {
        link := link + ",";
        text := text + ",";
      }
    }
    TypeLoopDone(attributes, link0, text0, index, types, link, text);
  }

  /** The j-th type is the value under the key "i+j". */
  ghost predicate ReadAt(attributes: map<string, string>, i: nat, r: seq<string>, j: nat)
    requires j < |r|
  {
    DecimalString(i + j) in attributes && r[j] == attributes[DecimalString(i + j)]
  }

  ghost predicate ReadInOrder(attributes: map<string, string>, i: nat, r: seq<string>) {
    forall j: nat :: j < |r| ==> ReadAt(attributes, i, r, j)
  }

  /** The type loop reads the attributes under consecutive keys "i",
      "i+1", ... in order and stops at the first key that is missing. */
  lemma {:induction false} TypeArgsConsecutive(attributes: map<string, string>, i: nat)
    ensures ReadInOrder(attributes, i, TypeArgs(attributes, i))
    ensures DecimalString(i + |TypeArgs(attributes, i)|) !in attributes
    decreases |attributes|
  {
    var key := DecimalString(i);
    if key in attributes {
      var rest := attributes - {key};
      assert |rest| < |attributes| by {
        assert rest.Keys == attributes.Keys - {key};
      }
      TypeArgsConsecutive(rest, i + 1);
      var r, r' := TypeArgs(attributes, i), TypeArgs(rest, i + 1);
      assert r == [attributes[key]] + r';
      forall j: nat | j < |r| ensures ReadAt(attributes, i, r, j) {
        if j > 0 {
          assert ReadAt(rest, i + 1, r', j - 1);
          assert i + j == i + 1 + (j - 1);
        }
      }
      DecimalStringInjective(i + |r|, i);
      assert i + |r| == i + 1 + |r'|;
    }
  }

  /** The simple name is a suffix of the qualified name: the part after its
      last '.', when there is a '.' past the first position, and the whole
      name otherwise. */
  lemma SimpleNameSuffix(qualified: string)
    ensures var s := SimpleName(qualified);
      && |s| <= |qualified| && s == qualified[|qualified| - |s|..]
      && ((exists k :: 0 < k < |qualified| && qualified[k] == '.') ==>
            |s| < |qualified| && qualified[|qualified| - |s| - 1] == '.' && '.' !in s)
      && ((forall k :: 0 < k < |qualified| ==> qualified[k] != '.') ==> s == qualified)
  {
    LastIndexOfFinds(qualified, '.');
    var start := LastIndexOf(qualified, '.');
    var s := SimpleName(qualified);
    if start > 0 {
      assert |s| == |qualified| - start - 1;
      forall j | 0 <= j < |s| ensures s[j] != '.' {
        assert s[j] == qualified[start + 1 + j];
      }
    }
  }

  /** Every segment goes to exactly one side, in order: the class name takes
      those starting with an upper-case letter, the package path the rest. */
  lemma {:induction false} SegmentsPartitioned(segs: seq<string>)
    ensures multiset(ClassSegments(segs)) + multiset(PackageSegments(segs)) == multiset(segs)
    ensures forall s :: s in ClassSegments(segs) ==> StartsUpper(s)
    ensures forall s :: s in PackageSegments(segs) ==> !StartsUpper(s)
  {
    if segs != [] {
      var init, last := segs[..|segs| - 1], segs[|segs| - 1];
      SegmentsPartitioned(init);
      assert segs == init + [last];
    }
  }

  /** The class page sits under the site, the version and "/io/jooby/"
      and ends with the class name and ".html". */
  lemma ClassPageShape(version: string, segs: seq<string>)
    ensures var page := ClassPage(version, segs);
      var tail := Join(ClassSegments(segs), ".") + ".html";
      && JavadocSite + version + "/io/jooby/" <= page
      && |tail| <= |page| && page[|page| - |tail|..] == tail
  {
    var head := JavadocSite + version + "/io/jooby/";
    var pkg := PackageSegments(segs);
    var mid := if |pkg| > 0 then Join(pkg, "/") + "/" else "";
    var x := head + mid;
    var tail := Join(ClassSegments(segs), ".") + ".html";
    var page := ClassPage(version, segs);
    assert page == x + tail by {
      assert (x + Join(ClassSegments(segs), ".")) + ".html" == x + tail;
    }
    assert x[..|head|] == head;
    assert page[..|x|] == x;
    assert page[|x|..] == tail;
  }

  /** The anchor only extends the page, and does so exactly when the first
      argument is a method or a constant name. */
  lemma AnchorExtendsPage(page: string, classname: string, attributes: map<string, string>)
    ensures var l := Anchored(page, classname, attributes);
      && page <= l.target
      && (l.target == page <==>
            !("1" in attributes && (IsMethodName(attributes["1"]) || IsConstantName(attributes["1"]))))
  {
  }

  /** The link always starts with the class page, which sits under the
      site, the version and "/io/jooby/" and ends with the class name and
      ".html"; an anchor follows it exactly when the first argument is a
      method or a constant name. */
  lemma JavadocLinkShape(version: string, clazz: string, attributes: map<string, string>)
    ensures var segs := JavaSplit(clazz);
      var page := ClassPage(version, segs);
      var l := Javadoc(version, clazz, attributes);
      var tail := Join(ClassSegments(segs), ".") + ".html";
      && JavadocSite + version + "/io/jooby/" <= page
      && |tail| <= |page| && page[|page| - |tail|..] == tail
      && page <= l.target
      && (l.target == page <==>
            !("1" in attributes && (IsMethodName(attributes["1"]) || IsConstantName(attributes["1"]))))
  {
    var segs := JavaSplit(clazz);
    ClassPageShape(version, segs);
    AnchorExtendsPage(ClassPage(version, segs), Join(ClassSegments(segs), "."), attributes);
  }

  /** A method with no "2" attribute gets the anchor "#name--" and the text
      "name()"; the "text" attribute is then ignored. */
  lemma MethodWithoutTypes(page: string, classname: string, attributes: map<string, string>)
    requires "1" in attributes && IsMethodName(attributes["1"])
    requires "2" !in attributes
    ensures Anchored(page, classname, attributes)
         == Link(page + "#" + attributes["1"] + "--", attributes["1"] + "()")
  {
    assert DecimalString(2) == "2";
  }

  /** Outside the method case the "text" attribute, when given, is the
      text; without it a constant shows its name and no argument shows the
      class name. */
  lemma TextChoice(page: string, classname: string, attributes: map<string, string>)
    requires !("1" in attributes && IsMethodName(attributes["1"]))
    ensures var t := Anchored(page, classname, attributes).text;
      && ("text" in attributes ==> t == attributes["text"])
      && ("text" !in attributes && "1" in attributes ==> t == attributes["1"])
      && ("text" !in attributes && "1" !in attributes ==> t == classname)
  {
  }

  /** The first half of `process`: the link up to the class page. */
  method ClassLink(version: string, names: seq<string>) returns (link: string, classname: string)
    requires SegmentsNonEmpty(names)
    ensures link == ClassPage(version, names)
    ensures classname == Join(ClassSegments(names), ".")
  {
    link := JavadocSite;
    link := link + version;
    var pkg, nameList := PartitionSegments(names);
    link := link + "/io/jooby/";
    if |pkg| > 0 {
      link := link + Join(pkg, "/") + "/";
    }
    classname := Join(nameList, ".");
    link := link + classname + ".html";
  }

  /** The second half of `process`: the anchor and the text chosen by the
      first argument. */
  method AppendAnchor(attributes: map<string, string>, classname: string, page: string)
    returns (link: string, text: string)
    requires "1" in attributes ==> attributes["1"] != ""
    ensures Link(link, text) == Anchored(page, classname, attributes)
  {
    link := page;
    text := "";
    var arg1: Option<string> := if "1" in attributes then Some(attributes["1"]) else None;
    var methodName: Option<string> := None;
    var variable: Option<string> := None;
    if arg1.Some? {
      if IsAsciiLower(arg1.value[0]) {
        methodName := arg1;
      }
      if IsConstantName(arg1.value) {
        variable := arg1;
      }
    }
    if methodName.Some? {
      link := link + "#" + methodName.value + "-";
      text := text + methodName.value + "(";
      link, text := AppendTypeArgs(attributes, link, text);
      link := link + "-";
      text := text + ")";
    } else if variable.Some? {
      link := link + "#" + variable.value;
      text := text + TextOr(attributes, arg1.GetOr(classname));
    } else {
      text := text + TextOr(attributes, arg1.GetOr(classname));
    }
  }

  /** JavadocProcessor.process: the link into the javadoc and its text. */
  method Process(version: string, clazz: string, attributes: map<string, string>)
    returns (link: string, text: string)
    requires ValidInput(clazz, attributes)
    ensures Link(link, text) == Javadoc(version, clazz, attributes)
  {
    var names := JavaSplit(clazz);
    var page, classname := ClassLink(version, names);
    link, text := AppendAnchor(attributes, classname, page);
  }
}
