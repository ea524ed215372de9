/** The scan that moves a knowledge base's bad documents to its quarantine prefix before
    every sync (app/api/v1/knowledge_bases.py `_scan_and_quarantine_kb_documents`,
    app/modules/knowledge_base/ingestion_scan.py). */
module Quarantine {
  import opened Common
  import Guardrails

  type Key = string
  newtype byte = b: int | 0 <= b < 256
  type Bytes = seq<byte>
  type Bucket = map<Key, Bytes>

  // ----- file names -----

  /** The last position of a character, or -1. */
  function RFind(s: string, c: char): (i: int)
    ensures -1 <= i < |s|
    ensures i >= 0 ==> s[i] == c
    ensures forall k :: i < k < |s| ==> s[k] != c
  {
    if s == "" then -1 else if s[|s| - 1] == c then |s| - 1 else RFind(s[..|s| - 1], c)
  }

  /** The last component of a path that is neither empty nor ".". */
  function NameOf(path: string): string
    decreases |path|
  {
    var i := RFind(path, '/');
    if path[i + 1..] != "" && path[i + 1..] != "." then path[i + 1..]
    else if i < 0 then "" else NameOf(path[..i])
  }

  function Suffix(name: string): string {
    var i := RFind(name, '.');
    if 0 < i < |name| - 1 then name[i..] else ""
  }

  function Lower(s: string): string {
    seq(|s|, k requires 0 <= k < |s| => if 'A' <= s[k] <= 'Z' then (s[k] as int + 32) as char else s[k])
  }

  function Extension(path: string): string {
    Lower(Suffix(NameOf(path)))
  }

  lemma {:induction false} NestedFind(dir: string, path: string)
    ensures RFind(dir + "/" + path, '/') == |dir| + 1 + RFind(path, '/')
    decreases |path|
  {
    var nested := dir + "/" + path;
    if path != "" {
      assert nested[|nested| - 1] == path[|path| - 1];
      assert nested[..|nested| - 1] == dir + "/" + path[..|path| - 1];
      NestedFind(dir, path[..|path| - 1]);
    }
  }

  lemma {:induction false} PlainName(dir: string)
    requires dir != "" && dir != "." && '/' !in dir
    ensures NameOf(dir) == dir
  {
    assert RFind(dir, '/') == -1;
    assert dir[0..] == dir;
  }

  /** Putting a file below a plainly named directory keeps its name, if it has one. */
  lemma {:induction false} NestedName(dir: string, path: string)
    requires dir != "" && dir != "." && '/' !in dir
    ensures NameOf(dir + "/" + path) == if NameOf(path) != "" then NameOf(path) else dir
    decreases |path|
  {
    var nested, i := dir + "/" + path, RFind(path, '/');
    NestedFind(dir, path);
    var j := RFind(nested, '/');
    assert nested[j + 1..] == path[i + 1..];
    if path[i + 1..] == "" || path[i + 1..] == "." {
      if i < 0 {
        assert nested[..j] == dir;
        PlainName(dir);
      } else {
        assert nested[..j] == dir + "/" + path[..i];
        NestedName(dir, path[..i]);
      }
    }
  }

  // ----- the two checks -----

  const ALLOWED: set<string> := {".pdf", ".docx", ".doc", ".txt", ".md", ".html", ".csv"}
  const EXTRACTABLE: set<string> := {".txt", ".md", ".html", ".csv"}
  const MAX_SIZE: nat := 50 * 1024 * 1024

  datatype Reason = Validation | PromptInjection

  /** How text is read out of bytes, when it is blank, and the classifiers behind the
      guardrail engine. */
  datatype Reader = Reader(decode: Bytes -> string, blank: string -> bool, models: Guardrails.Models)

  predicate Validates(extension: string, content: Bytes) {
    extension in ALLOWED && 0 < |content| <= MAX_SIZE
  }

  predicate Injects(r: Reader, extension: string, content: Bytes) {
    && extension in EXTRACTABLE
    && !r.blank(r.decode(content))
    && r.models.factory(Guardrails.INJECTION)(r.decode(content)) > 0.30
  }

  /** Both checks look at a file name only for its extension. */
  function VerdictFor(r: Reader, extension: string, content: Bytes): Option<Reason> {
    if !Validates(extension, content) then Some(Validation)
    else if Injects(r, extension, content) then Some(PromptInjection)
    else None
  }

  function Verdict(r: Reader, filename: string, content: Bytes): Option<Reason> {
    VerdictFor(r, Extension(filename), content)
  }

  /** The extension of a named file, wherever it is: what follows the last dot of the name,
      in lower case, if anything does. */
  lemma {:induction false} ExtensionIs(dir: string, stem: string, ext: string)
    requires stem != "" && '/' !in stem && '/' !in ext && '.' !in ext
    ensures Extension(stem + "." + ext) == if ext == "" then "" else "." + Lower(ext)
    ensures Extension(dir + "/" + (stem + "." + ext)) == Extension(stem + "." + ext)
  {
    IsName(stem, ext);
    NameIs(dir, stem + "." + ext);
    LastDot(stem, ext);
    assert Lower("") == "";
  }

  /** There is none without a dot, or when nothing stands before the only one. */
  lemma {:induction false} NoExtension(dir: string, name: string)
    requires name != "" && name != "." && '/' !in name && '.' !in name[1..]
    ensures Extension(dir + "/" + name) == Extension(name) == ""
  {
    NameIs(dir, name);
    assert forall k :: 1 <= k < |name| ==> name[k] == name[1..][k - 1];
    assert RFind(name, '.') <= 0;
  }

  lemma {:induction false} LowerIs(s: string)
    ensures |Lower(s)| == |s|
    ensures forall k :: 0 <= k < |s| ==> Lower(s)[k] as int == if 65 <= s[k] as int <= 90 then s[k] as int + 32 else s[k] as int
  {}

  lemma {:induction false} IsName(stem: string, ext: string)
    requires stem != "" && '/' !in stem && '/' !in ext
    ensures var name := stem + "." + ext; name != "" && name != "." && '/' !in name
  {
    var name := stem + "." + ext;
    assert |name| >= 2;
  }

  lemma {:induction false} NameIs(dir: string, name: string)
    requires name != "" && name != "." && '/' !in name
    ensures NameOf(dir + "/" + name) == NameOf(name) == name
  {
    var path := dir + "/" + name;
    NestedFind(dir, name);
    assert RFind(name, '/') == -1;
    assert name[0..] == name && path[|dir| + 1..] == name;
  }

  lemma {:induction false} LastDot(stem: string, ext: string)
    requires stem != "" && '.' !in ext
    ensures Suffix(stem + "." + ext) == if ext == "" then "" else "." + ext
    ensures Lower("." + ext) == "." + Lower(ext)
  {
    var name := stem + "." + ext;
    assert name[|stem|] == '.';
    assert forall k :: |stem| < k < |name| ==> name[k] == ext[k - |stem| - 1];
    assert RFind(name, '.') == |stem|;
    assert name[|stem|..] == "." + ext;
  }

  /** Which documents are rejected, outright. */
  lemma {:induction false} VerdictIs(r: Reader, filename: string, content: Bytes)
    ensures var ext, text, verdict := Extension(filename), r.decode(content), Verdict(r, filename, content);
            var valid := ext in {".pdf", ".docx", ".doc", ".txt", ".md", ".html", ".csv"} && 0 < |content| <= 52428800;
            var score := r.models.factory(Guardrails.ModelKey("protectai/deberta-v3-base-prompt-injection-v2", "injection"))(text);
            && (verdict == Some(Validation) <==> !valid)
            && (verdict == Some(PromptInjection) <==>
                  valid && ext !in {".pdf", ".docx", ".doc"} && !r.blank(text) && score > 0.30)
  {}

  // ----- the quarantine prefix -----

  const DIRECTORY := "-quarantine"

  function StripSlashes(s: string): (r: string)
    ensures r <= s
    ensures r == s <==> s == "" || s[|s| - 1] != '/'
    ensures forall k :: |r| <= k < |s| ==> s[k] == '/'
    ensures r == "" || r[|r| - 1] != '/'
  {
    if s != "" && s[|s| - 1] == '/' then StripSlashes(s[..|s| - 1]) else s
  }

  function QuarantinePrefix(prefix: Key): Key {
    StripSlashes(prefix) + DIRECTORY + "/"
  }

  predicate EndsWithSlash(s: string) {
    s != "" && s[|s| - 1] == '/'
  }

  /** A quarantine key lies under the scanned prefix exactly when that prefix does not end
      with a slash. */
  lemma {:induction false} QuarantineIsApartIff(prefix: Key, filename: string)
    ensures prefix <= QuarantinePrefix(prefix) + filename <==> !EndsWithSlash(prefix)
  {
    var bare, key := StripSlashes(prefix), QuarantinePrefix(prefix) + filename;
    assert key[|bare|] == '-';
    if !EndsWithSlash(prefix) {
      assert key[..|bare|] == bare;
    }
  }

  /** Where a document goes: beside its prefix, whose final slashes go. */
  lemma {:induction false} QuarantineKeyIs(bare: string, slashes: string)
    requires !EndsWithSlash(bare) && forall k :: 0 <= k < |slashes| ==> slashes[k] == '/'
    ensures QuarantinePrefix(bare + slashes) == bare + "-quarantine/"
    decreases |slashes|
  {
    var s := bare + slashes;
    if slashes == "" {
      assert s == bare;
    } else {
      assert s[|s| - 1] == '/' && s[..|s| - 1] == bare + slashes[..|slashes| - 1];
      QuarantineKeyIs(bare, slashes[..|slashes| - 1]);
    }
  }

  // ----- the scan -----

  datatype Rejection = Rejection(filename: string, reason: Reason)

  datatype Scan = Scan(objects: Bucket, rejected: seq<Rejection>)

  /** What the scan knows of a key: the file name below the prefix, why its content would
      be rejected, and where it would go. */
  datatype Site = Site(name: Key -> string, bad: (Key, Bytes) -> Option<Reason>, to: Key -> Key)

  function Filename(prefix: Key, key: Key): string {
    if prefix <= key then key[|prefix|..] else ""
  }

  function SiteOf(prefix: Key, r: Reader): Site {
    Site(key => Filename(prefix, key),
         (key, content) => if Filename(prefix, key) == "" then None else Verdict(r, Filename(prefix, key), content),
         key => QuarantinePrefix(prefix) + Filename(prefix, key))
  }

  /** What the scan knows of an object, and what moving it comes to. */
  lemma {:induction false} SiteFacts(prefix: Key, r: Reader, b: Bucket, key: Key)
    requires prefix <= key && key in b
    ensures var s := SiteOf(prefix, r);
            var filename := Filename(prefix, key);
            && s.name(key) == filename && s.to(key) == QuarantinePrefix(prefix) + filename
            && s.bad(key, b[key]) == if filename == "" then None else Verdict(r, filename, b[key])
  {}

  /** What one listed object comes to. */
  function Step(s: Site, scan: Scan, key: Key): Scan {
    if key !in scan.objects || s.bad(key, scan.objects[key]).None? then scan
    else Scan(scan.objects[s.to(key) := scan.objects[key]] - {key},
              scan.rejected + [Rejection(s.name(key), s.bad(key, scan.objects[key]).value)])
  }

  function Scanned(s: Site, b: Bucket, page: seq<Key>): Scan
    decreases |page|
  {
    if page == [] then Scan(b, []) else Step(s, Scanned(s, b, page[..|page| - 1]), page[|page| - 1])
  }

  /** One page of a listing: distinct keys of the bucket under the prefix. */
  predicate Lists(prefix: Key, b: Bucket, page: seq<Key>) {
    Distinct(page) && forall k :: 0 <= k < |page| ==> prefix <= page[k] && page[k] in b
  }

  predicate ListsAll(prefix: Key, b: Bucket, page: seq<Key>) {
    Lists(prefix, b, page) && forall key :: key in b && prefix <= key ==> key in page
  }

  /** What happens to the calls about one object. */
  datatype Fate = Fine | GetFails | CopyFails(effect: bool) | DeleteFails(effect: bool) | AuditFails

  /** The bucket when the calls about one object stop short. */
  function Interrupted(s: Site, b: Bucket, key: Key, fate: Fate): Bucket
    requires key in b
  {
    if fate.GetFails? || s.bad(key, b[key]).None? || (fate.CopyFails? && !fate.effect) then b
    else if fate.CopyFails? || (fate.DeleteFails? && !fate.effect) then b[s.to(key) := b[key]]
    else b[s.to(key) := b[key]] - {key}
  }

  predicate StopsAt(s: Site, b: Bucket, key: Key, fate: Fate)
    requires key in b
  {
    s.name(key) != "" && (fate.GetFails? || (!fate.Fine? && s.bad(key, b[key]).Some?))
  }

  /** What a failing call leaves: a copy that took effect, or a failed deletion that did not,
      leaves the rejected document at both keys; after the deletion it has moved. A failure
      about a document that is not rejected can only be its read. */
  lemma {:induction false} FailureIs(prefix: Key, r: Reader, b: Bucket, key: Key, fate: Fate)
    requires prefix <= key && key in b
    ensures var s, name := SiteOf(prefix, r), key[|prefix|..];
            var to := QuarantinePrefix(prefix) + name;
            var rejected := name != "" && Verdict(r, name, b[key]).Some?;
            && (StopsAt(s, b, key, fate) <==> name != "" && (fate == GetFails || (rejected && fate != Fine)))
            && (StopsAt(s, b, key, fate) ==>
                  Interrupted(s, b, key, fate) ==
                  if fate == CopyFails(true) || fate == DeleteFails(false) then b[to := b[key]]
                  else if fate == DeleteFails(true) || fate == AuditFails then b[to := b[key]] - {key}
                  else b)
  {
    SiteFacts(prefix, r, b, key);
  }

  /** No call about the k-th listed object raises. */
  predicate Passes(s: Site, b: Bucket, page: seq<Key>, fates: nat -> Fate, k: nat)
    requires k < |page|
  {
    var objects := Scanned(s, b, page[..k]).objects;
    page[k] in objects && !StopsAt(s, objects, page[k], fates(k))
  }

  class KnowledgeBase {
    const prefix: Key
    const reader: Reader
    const engine: Guardrails.GuardrailEngine
    var objects: Bucket

    ghost predicate Valid()
      reads this, engine
    {
      engine.Valid() && engine.models == reader.models
    }

    constructor (prefix: Key, reader: Reader, engine: Guardrails.GuardrailEngine, objects: Bucket)
      requires engine.Valid() && engine.models == reader.models
      ensures Valid() && this.prefix == prefix && this.reader == reader && this.engine == engine && this.objects == objects
    {
      this.prefix := prefix;
      this.reader := reader;
      this.engine := engine;
      this.objects := objects;
    }

    method ScanForPromptInjection(filename: string, content: Bytes) returns (rejects: bool)
      requires Valid()
      modifies engine
      ensures Valid() && rejects == Injects(reader, Extension(filename), content)
    {
      if Extension(filename) !in EXTRACTABLE {
        return false;
      }
      var text := reader.decode(content);
      if reader.blank(text) {
        return false;
      }
      var decision := engine.CheckInput(text, Guardrails.INJECTION_ONLY, Guardrails.CallFails);
      Guardrails.InjectionOnlyBlocksIff(engine.models, engine.mock, text, Guardrails.CallFails);
      return decision.blocked;
    }

    method CheckDocument(filename: string, content: Bytes) returns (verdict: Option<Reason>)
      requires Valid()
      modifies engine
      ensures Valid() && verdict == Verdict(reader, filename, content)
    {
      if Extension(filename) !in ALLOWED || |content| > MAX_SIZE || |content| == 0 {
        return Some(Validation);
      }
      var rejects := ScanForPromptInjection(filename, content);
      return if rejects then Some(PromptInjection) else None;
    }

    /** One listed object: read, check, copy, delete, and note the rejection. */
    method Handle(key: Key, fate: Fate) returns (rejection: Option<Rejection>, raised: bool)
      requires Valid() && prefix <= key && key in objects
      modifies this`objects, engine
      ensures Valid() && raised == StopsAt(SiteOf(prefix, reader), old(objects), key, fate)
      ensures raised ==> objects == Interrupted(SiteOf(prefix, reader), old(objects), key, fate)
      ensures !raised ==> Scan(objects, if rejection.Some? then [rejection.value] else [])
                          == Step(SiteOf(prefix, reader), Scan(old(objects), []), key)
    {
      var filename := Filename(prefix, key);
      SiteFacts(prefix, reader, objects, key);
      if filename == "" {
        return None, false;
      }
      if fate.GetFails? {
        return None, true;
      }
      var content := objects[key];
      var verdict := CheckDocument(filename, content);
      if verdict.None? {
        return None, false;
      }
      if fate.CopyFails? && !fate.effect {
        return None, true;
      }
      objects := objects[QuarantinePrefix(prefix) + filename := content];
      if fate.CopyFails? || (fate.DeleteFails? && !fate.effect) {
        return None, true;
      }
      objects := objects - {key};
      return Some(Rejection(filename, verdict.value)), !fate.Fine?;
    }

    /** The loop over one listing; `done` objects went through before a call raised. */
    method ScanAndQuarantine(page: seq<Key>, fates: nat -> Fate) returns (rejected: seq<Rejection>, done: nat)
      requires Valid() && Lists(prefix, objects, page)
      modifies this`objects, engine
      ensures Valid() && done <= |page|
      ensures var s := Scanned(SiteOf(prefix, reader), old(objects), page[..done]);
              && rejected == s.rejected
              && (done == |page| ==> objects == s.objects)
              && (done < |page| ==>
                    && page[done] in s.objects && StopsAt(SiteOf(prefix, reader), s.objects, page[done], fates(done))
                    && objects == Interrupted(SiteOf(prefix, reader), s.objects, page[done], fates(done)))
      ensures forall k: nat :: k < done ==> Passes(SiteOf(prefix, reader), old(objects), page, fates, k)
    {
      rejected, done := [], 0;
      while done < |page|
        invariant Valid() && done <= |page|
        invariant Scan(objects, rejected) == Scanned(SiteOf(prefix, reader), old(objects), page[..done])
        invariant forall k :: done <= k < |page| ==> page[k] in objects
        invariant forall k: nat :: k < done ==> Passes(SiteOf(prefix, reader), old(objects), page, fates, k)
      {
        ScannedStep(SiteOf(prefix, reader), old(objects), page, done, objects, rejected);
        var rejection, raised := Handle(page[done], fates(done));
        if raised {
          return;
        }
        if rejection.Some? {
          rejected := rejected + [rejection.value];
        }
        done := done + 1;
      }
      assert page[..|page|] == page;
    }
  }

  /** One more listed object: its own rejection is added to those before, and the objects
      still to come are still there. */
  lemma {:induction false} ScannedStep(s: Site, b: Bucket, page: seq<Key>, done: nat, objects: Bucket, rejected: seq<Rejection>)
    requires done < |page| && Scan(objects, rejected) == Scanned(s, b, page[..done])
    requires Distinct(page) && forall k :: done <= k < |page| ==> page[k] in objects
    ensures var one := Step(s, Scan(objects, []), page[done]);
            && Scanned(s, b, page[..done + 1]) == Scan(one.objects, rejected + one.rejected)
            && forall k :: done < k < |page| ==> page[k] in one.objects
  {
    assert page[..done + 1][..done] == page[..done];
  }

  // ----- what a scan leaves behind -----

  function At(b: Bucket, key: Key): Option<Bytes> {
    if key in b then Some(b[key]) else None
  }

  predicate Rejected(s: Site, b: Bucket, key: Key) {
    key in b && s.bad(key, b[key]).Some?
  }

  predicate IsDestination(s: Site, b: Bucket, page: seq<Key>, key: Key) {
    exists k :: 0 <= k < |page| && Rejected(s, b, page[k]) && key == s.to(page[k])
  }

  /** The listed objects that fail a check are gone from their keys and sit, byte for byte,
      at their own quarantine keys; nothing else has changed. */
  ghost predicate Settled(s: Site, before: Bucket, page: seq<Key>, after: Bucket) {
    && (forall k :: 0 <= k < |page| && Rejected(s, before, page[k]) ==>
          At(after, page[k]) == None && At(after, s.to(page[k])) == Some(before[page[k]]))
    && (forall key :: !(key in page && Rejected(s, before, key)) ==>
          !IsDestination(s, before, page, key) ==> At(after, key) == At(before, key))
  }

  /** Quarantine keys are never listed, and no two listed keys share one. */
  predicate Separate(s: Site, page: seq<Key>) {
    && (forall i, j :: 0 <= i < |page| && 0 <= j < |page| ==> s.to(page[i]) != page[j])
    && (forall i, j :: 0 <= i < j < |page| ==> s.to(page[i]) != s.to(page[j]))
  }

  /** A key that is neither listed nor a destination of a rejected object stays as it is. */
  lemma {:induction false} OthersStay(s: Site, b: Bucket, page: seq<Key>, key: Key)
    requires Distinct(page) && Separate(s, page)
    requires key !in page && !IsDestination(s, b, page, key)
    ensures At(Scanned(s, b, page).objects, key) == At(b, key)
    decreases |page|
  {
    if page != [] {
      var rest, last := page[..|page| - 1], page[|page| - 1];
      assert last == page[|page| - 1] && last !in rest;
      OthersStay(s, b, rest, key);
      assert !IsDestination(s, b, rest, last);
      OthersStay(s, b, rest, last);
    }
  }

  /** A listed object is moved if it is rejected as it was listed, and else stays. */
  lemma {:induction false} ListedMoves(s: Site, b: Bucket, page: seq<Key>, k: nat)
    requires Distinct(page) && Separate(s, page) && k < |page|
    ensures var after := Scanned(s, b, page).objects;
            if Rejected(s, b, page[k]) then At(after, page[k]) == None && At(after, s.to(page[k])) == At(b, page[k])
            else At(after, page[k]) == At(b, page[k])
    decreases |page|
  {
    var rest, last := page[..|page| - 1], page[|page| - 1];
    assert last !in rest && !IsDestination(s, b, rest, last);
    OthersStay(s, b, rest, last);
    if k < |rest| {
      ListedMoves(s, b, rest, k);
      assert rest[k] == page[k];
    }
  }

  lemma {:induction false} SeparateSettles(s: Site, b: Bucket, page: seq<Key>)
    requires Distinct(page) && Separate(s, page)
    ensures Settled(s, b, page, Scanned(s, b, page).objects)
  {
    var after := Scanned(s, b, page).objects;
    forall k | 0 <= k < |page| && Rejected(s, b, page[k])
      ensures At(after, page[k]) == None && At(after, s.to(page[k])) == Some(b[page[k]])
    {
      ListedMoves(s, b, page, k);
    }
    forall key | !(key in page && Rejected(s, b, key)) && !IsDestination(s, b, page, key)
      ensures At(after, key) == At(b, key)
    {
      if key in page {
        var k :| 0 <= k < |page| && page[k] == key;
        ListedMoves(s, b, page, k);
      } else {
        OthersStay(s, b, page, key);
      }
    }
  }

  /** No key under a prefix that ends with a slash is a quarantine key. */
  lemma {:induction false} NotUnder(prefix: Key, r: Reader, key: Key, other: Key)
    requires EndsWithSlash(prefix) && prefix <= key
    ensures key != SiteOf(prefix, r).to(other)
  {
    QuarantineIsApartIff(prefix, Filename(prefix, other));
  }

  lemma {:induction false} Apart(prefix: Key, r: Reader, b: Bucket, page: seq<Key>)
    requires Lists(prefix, b, page) && EndsWithSlash(prefix)
    ensures Separate(SiteOf(prefix, r), page)
  {
    var s := SiteOf(prefix, r);
    forall i, j | 0 <= i < |page| && 0 <= j < |page|
      ensures s.to(page[i]) != page[j]
    {
      NotUnder(prefix, r, page[j], page[i]);
    }
    forall i, j | 0 <= i < j < |page|
      ensures s.to(page[i]) != s.to(page[j])
    {
      DestinationsDiffer(prefix, page[i], page[j]);
    }
  }

  lemma {:induction false} DestinationsDiffer(prefix: Key, a: Key, b: Key)
    requires prefix <= a && prefix <= b && a != b
    ensures QuarantinePrefix(prefix) + Filename(prefix, a) != QuarantinePrefix(prefix) + Filename(prefix, b)
  {
    assert a == prefix + Filename(prefix, a) && b == prefix + Filename(prefix, b);
    var q := QuarantinePrefix(prefix);
    assert (q + Filename(prefix, a))[|q|..] == Filename(prefix, a);
    assert (q + Filename(prefix, b))[|q|..] == Filename(prefix, b);
  }

  /** For a prefix that ends with a slash: every rejected document sits, byte for byte, at
      its own quarantine key outside the prefix, and nothing else has changed. */
  lemma {:induction false} ScanSettles(prefix: Key, r: Reader, b: Bucket, page: seq<Key>)
    requires Lists(prefix, b, page) && EndsWithSlash(prefix)
    ensures Settled(SiteOf(prefix, r), b, page, Scanned(SiteOf(prefix, r), b, page).objects)
    ensures forall key :: prefix <= key ==> !IsDestination(SiteOf(prefix, r), b, page, key)
  {
    Apart(prefix, r, b, page);
    SeparateSettles(SiteOf(prefix, r), b, page);
    forall key | prefix <= key
      ensures !IsDestination(SiteOf(prefix, r), b, page, key)
    {
      forall k | 0 <= k < |page|
        ensures key != SiteOf(prefix, r).to(page[k])
      {
        NotUnder(prefix, r, key, page[k]);
      }
    }
  }

  /** A document that an earlier scan, or anybody, left at a quarantine key is still there
      after a scan if and only if no listed object that is rejected now goes to that key
      with other bytes: a later rejection of the same file name overwrites it. */
  lemma {:induction false} QuarantinedSurvivesIff(prefix: Key, r: Reader, b: Bucket, page: seq<Key>, key: Key)
    requires Lists(prefix, b, page) && EndsWithSlash(prefix)
    requires QuarantinePrefix(prefix) <= key && key in b
    ensures var s := SiteOf(prefix, r);
            At(Scanned(s, b, page).objects, key) == Some(b[key]) <==>
              forall k :: 0 <= k < |page| && Rejected(s, b, page[k]) && s.to(page[k]) == key ==> b[page[k]] == b[key]
  {
    var s := SiteOf(prefix, r);
    var filename := key[|QuarantinePrefix(prefix)|..];
    assert key == QuarantinePrefix(prefix) + filename;
    QuarantineIsApartIff(prefix, filename);
    ScanSettles(prefix, r, b, page);
    if IsDestination(s, b, page, key) {
      var k :| 0 <= k < |page| && Rejected(s, b, page[k]) && key == s.to(page[k]);
      Apart(prefix, r, b, page);
      assert forall j :: 0 <= j < |page| && s.to(page[j]) == key ==> j == k;
    }
  }

  /** A document that is still at its key, or at its destination, is so after the calls
      about one more object, however they end. */
  lemma {:induction false} SurvivesOne(s: Site, b: Bucket, page: seq<Key>, n: nat, fate: Fate, key: Key)
    requires Distinct(page) && Separate(s, page) && n < |page| && page[n] in b && key in b
    requires s.to(page[n]) != key && s.to(key) != page[n] && (key != page[n] ==> s.to(key) != s.to(page[n]))
    requires key !in page[..n] ==> !IsDestination(s, b, page[..n], key)
    ensures var reached := Scanned(s, b, page[..n]).objects;
            && page[n] in reached
            && (At(Interrupted(s, reached, page[n], fate), key) == Some(b[key])
                || At(Interrupted(s, reached, page[n], fate), s.to(key)) == Some(b[key]))
  {
    var rest := page[..n];
    assert page[n] !in rest && !IsDestination(s, b, rest, page[n]);
    OthersStay(s, b, rest, page[n]);
    assert At(Scanned(s, b, rest).objects, page[n]).Some?;
    if key in rest {
      var k :| 0 <= k < n && rest[k] == key;
      ListedMoves(s, b, rest, k);
    } else {
      OthersStay(s, b, rest, key);
    }
  }

  /** Wherever a scan of such a prefix stops, every document under the prefix is still
      there, at its own key or at its own quarantine key. */
  lemma {:induction false} NothingLost(prefix: Key, r: Reader, b: Bucket, page: seq<Key>, n: nat, fate: Fate, key: Key)
    requires Lists(prefix, b, page) && EndsWithSlash(prefix) && n < |page| && prefix <= key && key in b
    ensures var s := SiteOf(prefix, r);
            var reached := Scanned(s, b, page[..n]).objects;
            && page[n] in reached
            && (At(Interrupted(s, reached, page[n], fate), key) == Some(b[key])
                || At(Interrupted(s, reached, page[n], fate), s.to(key)) == Some(b[key]))
  {
    ScanSettles(prefix, r, b, page[..n]);
    Apart(prefix, r, b, page);
    NotUnder(prefix, r, key, page[n]);
    NotUnder(prefix, r, page[n], key);
    if key != page[n] {
      DestinationsDiffer(prefix, key, page[n]);
    }
    SurvivesOne(SiteOf(prefix, r), b, page, n, fate, key);
  }

  /** A scan that rejects nothing changes nothing, and rejects nothing exactly when every
      listed object passes. */
  lemma {:induction false} RejectsNoneIff(s: Site, b: Bucket, page: seq<Key>)
    ensures Scanned(s, b, page).rejected == [] <==> forall k :: 0 <= k < |page| ==> !Rejected(s, b, page[k])
    ensures Scanned(s, b, page).rejected == [] ==> Scanned(s, b, page).objects == b
    decreases |page|
  {
    if page != [] {
      RejectsNoneIff(s, b, page[..|page| - 1]);
    }
  }

  lemma {:induction false} NestedExtension(dir: string, filename: string)
    requires dir != "" && '/' !in dir && '.' !in dir
    ensures Extension(dir + "/" + filename) == Extension(filename)
  {
    NestedName(dir, filename);
    assert RFind(dir, '.') == -1;
    assert Suffix(dir) == "" && Suffix("") == "";
  }

  /** The verdict on a document below a plain directory is the verdict on the document. */
  lemma {:induction false} BadBelow(prefix: Key, r: Reader, dir: string, key: Key, to: Key, content: Bytes)
    requires dir != "" && '/' !in dir && '.' !in dir && prefix <= key
    requires to == prefix + (dir + "/" + Filename(prefix, key))
    requires SiteOf(prefix, r).bad(key, content).Some?
    ensures SiteOf(prefix, r).bad(to, content).Some?
  {
    var filename := Filename(prefix, key);
    assert Filename(prefix, to) == dir + "/" + filename;
    NestedExtension(dir, filename);
  }

  /** Without a final slash the quarantine is a directory under the prefix. */
  lemma {:induction false} MovedBelow(prefix: Key, r: Reader, key: Key)
    requires !EndsWithSlash(prefix) && prefix <= key
    ensures var to := SiteOf(prefix, r).to(key);
            prefix <= to && to != key && to == prefix + (DIRECTORY + "/" + Filename(prefix, key))
  {
    QuarantineIsApartIff(prefix, Filename(prefix, key));
    assert key == prefix + Filename(prefix, key);
  }

  lemma {:induction false} DirectoryIsPlain()
    ensures DIRECTORY != "" && '/' !in DIRECTORY && '.' !in DIRECTORY
  {
  }

  /** A quarantined document gets the verdict it had, when its quarantine key is itself
      under the prefix. */
  lemma {:induction false} MovedIsStillBad(prefix: Key, r: Reader, key: Key, content: Bytes)
    requires !EndsWithSlash(prefix) && prefix <= key && SiteOf(prefix, r).bad(key, content).Some?
    ensures var to := SiteOf(prefix, r).to(key); prefix <= to && to != key && SiteOf(prefix, r).bad(to, content).Some?
  {
    MovedBelow(prefix, r, key);
    DirectoryIsPlain();
    BadBelow(prefix, r, DIRECTORY, key, SiteOf(prefix, r).to(key), content);
  }

  /** The last document a scan moved is where the scan put it. */
  lemma {:induction false} LastMoved(s: Site, b: Bucket, page: seq<Key>) returns (key: Key, content: Bytes)
    requires Scanned(s, b, page).rejected != []
    ensures key in page && s.bad(key, content).Some?
    ensures s.to(key) != key ==> At(Scanned(s, b, page).objects, s.to(key)) == Some(content)
    decreases |page|
  {
    var last, rest := page[|page| - 1], page[..|page| - 1];
    var scan := Scanned(s, b, rest);
    if last in scan.objects && s.bad(last, scan.objects[last]).Some? {
      key, content := last, scan.objects[last];
    } else {
      key, content := LastMoved(s, b, rest);
    }
  }

  /** When the quarantine lies under the prefix, a scan that moved something leaves
      something bad under the prefix. */
  lemma {:induction false} MovedIsListedAgain(prefix: Key, r: Reader, b: Bucket, page: seq<Key>) returns (key: Key)
    requires !EndsWithSlash(prefix) && Scanned(SiteOf(prefix, r), b, page).rejected != []
    requires forall k :: 0 <= k < |page| ==> prefix <= page[k]
    ensures prefix <= key && Rejected(SiteOf(prefix, r), Scanned(SiteOf(prefix, r), b, page).objects, key)
  {
    var moved, content := LastMoved(SiteOf(prefix, r), b, page);
    MovedIsStillBad(prefix, r, moved, content);
    key := SiteOf(prefix, r).to(moved);
  }

  /** With complete listings and nobody else writing, a second scan rejects nothing exactly
      when the prefix ends with a slash or the first scan rejected nothing. */
  lemma {:induction false} SecondScanIsCleanIff(prefix: Key, r: Reader, b: Bucket, page: seq<Key>, again: seq<Key>)
    requires ListsAll(prefix, b, page) && ListsAll(prefix, Scanned(SiteOf(prefix, r), b, page).objects, again)
    ensures var s := SiteOf(prefix, r);
            var first := Scanned(s, b, page);
            Scanned(s, first.objects, again).rejected == [] <==> EndsWithSlash(prefix) || first.rejected == []
  {
    var s := SiteOf(prefix, r);
    var first := Scanned(s, b, page);
    RejectsNoneIff(s, first.objects, again);
    RejectsNoneIff(s, b, page);
    if first.rejected != [] {
      if EndsWithSlash(prefix) {
        forall k | 0 <= k < |again|
          ensures !Rejected(s, first.objects, again[k])
        {
          WhatRemainsPasses(prefix, r, b, page, again[k]);
        }
      } else {
        var key := MovedIsListedAgain(prefix, r, b, page);
        assert key in again;
      }
    } else {
      assert forall k :: 0 <= k < |again| ==> again[k] in page;
    }
  }

  lemma {:induction false} KeptWasGood(s: Site, before: Bucket, page: seq<Key>, after: Bucket, k: nat)
    requires Settled(s, before, page, after) && k < |page| && page[k] in after
    ensures !Rejected(s, before, page[k])
  {
    assert At(after, page[k]) != None;
  }

  /** The promise to the knowledge base: for a prefix that ends with a slash and a complete
      listing, what is left under the prefix was there before and passes. */
  lemma {:induction false} WhatRemainsPasses(prefix: Key, r: Reader, b: Bucket, page: seq<Key>, key: Key)
    requires ListsAll(prefix, b, page) && EndsWithSlash(prefix)
    requires prefix <= key && key in Scanned(SiteOf(prefix, r), b, page).objects
    ensures key in b && Scanned(SiteOf(prefix, r), b, page).objects[key] == b[key]
    ensures key == prefix || Verdict(r, Filename(prefix, key), b[key]) == None
    ensures !Rejected(SiteOf(prefix, r), b, key)
  {
    var s := SiteOf(prefix, r);
    var after := Scanned(s, b, page).objects;
    ScanSettles(prefix, r, b, page);
    assert At(after, key).Some?;
    if key in page {
      var k :| 0 <= k < |page| && page[k] == key;
      KeptWasGood(s, b, page, after, k);
    }
    assert key != prefix ==> Filename(prefix, key) != "";
  }
}
