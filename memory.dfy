/**
  * The email agent's long-term memory helpers (src/utils/email_agent_v4.py):
  * loading similar past emails from the vector store, removing from them what
  * the recent history already shows, checking a text against the token limit
  * and shrinking an over-long memory text. The vector search, the token
  * counter and the language model are oracles passed in as values or functions.
  */
module Memory {
  import opened Wrappers
  import opened Strings
  import opened Mail

  /** The word that opens every loaded memory and separates them on deduplication. */
  const SectionMarker := "Relevant Past Email"
  const SubjectTag := "Subject:"
  const FromTag := "From:"
  const SubjectKey := "subject:"
  const FromKey := "from:"
  const EmailKey := "email:"
  const DefaultMaxResults: nat := 5

  // ---------------------------------------------------------------------------
  // Loading memory from the vector store
  // ---------------------------------------------------------------------------

  /** The first `n` characters of `s` (Python's `s[:n]` for `n >= 0`). */
  function Prefix(s: string, n: nat): (r: string)
    ensures |r| <= n && |r| <= |s| && r == s[..|r|]
    ensures |s| <= n ==> r == s
  {
    if |s| <= n then s else s[..n]
  }

  /** The query text the similar emails are searched with: the email's sender,
      subject and the first 200 characters of its body. */
  function MemoryQuery(email: Email): string {
    "From: " + email.sender + "\nSubject: " + email.subject + "\nBody: " + Prefix(email.body, 200)
  }

  /** A retrieved document is used when it is present and not blank. */
  predicate Usable(doc: Option<string>) {
    doc.Some? && !IsBlank(doc.value)
  }

  /** The memory entry of the document at (1-based) position `position`. */
  function MemoryEntry(position: nat, doc: string): string {
    SectionMarker + " " + NatToString(position) + ":\n" + doc + "\n"
  }

  /** The entries of the usable documents, in the order the store returned
      them, each numbered by its position among all the returned documents. */
  function Memories(docs: seq<Option<string>>): seq<string>
    decreases |docs|
  {
    if |docs| == 0 then []
    else
      var n := |docs| - 1;
      Memories(docs[..n]) + (if Usable(docs[n]) then [MemoryEntry(n + 1, docs[n].value)] else [])
  }

  /** The joined memories are empty exactly when no document is usable. */
  lemma JoinedMemoriesEmpty(docs: seq<Option<string>>)
    ensures Join(Memories(docs), "\n") == "" <==> forall i :: 0 <= i < |docs| ==> !Usable(docs[i])
  {
    MemoriesAreUsableDocsInOrder(docs);
    var ms := Memories(docs);
    if |ms| > 0 {
      assert ms[0] in ms;
      var i :| 0 <= i < |docs| && Usable(docs[i]) && ms[0] == MemoryEntry(i + 1, docs[i].value);
      assert |Join(ms, "\n")| >= |ms[0]| > 0;
    }
  }

  /** Each memory is the entry of a usable document, the documents are taken
      in order, and every usable document gives one. */
  lemma {:induction false} MemoriesAreUsableDocsInOrder(docs: seq<Option<string>>)
    ensures |Memories(docs)| <= |docs|
    ensures Memories(docs) == [] <==> forall i :: 0 <= i < |docs| ==> !Usable(docs[i])
    ensures forall i :: 0 <= i < |docs| && Usable(docs[i]) ==> MemoryEntry(i + 1, docs[i].value) in Memories(docs)
    ensures forall m :: m in Memories(docs) ==>
              exists i :: 0 <= i < |docs| && Usable(docs[i]) && m == MemoryEntry(i + 1, docs[i].value)
    decreases |docs|
  {
    if |docs| > 0 {
      var n := |docs| - 1;
      MemoriesAreUsableDocsInOrder(docs[..n]);
      assert forall i :: 0 <= i < n ==> docs[..n][i] == docs[i];
    }
  }

  /** `_load_memory_from_vectordb(email_data, max_results)`. `search` is the
      vector store: `None` when the collection is missing, the query raises or
      no document comes back, else `results['documents'][0]`. The memory is the
      usable documents' entries joined by newlines, or '' when there is none. */
  method LoadMemoryFromVectorDb(email: Email, maxResults: nat, search: (string, nat) -> Option<seq<Option<string>>>)
    returns (memory: string)
    ensures search(MemoryQuery(email), maxResults).None? ==> memory == ""
    ensures search(MemoryQuery(email), maxResults).Some? ==>
              memory == Join(Memories(search(MemoryQuery(email), maxResults).value), "\n")
  {
    var results := search(MemoryQuery(email), maxResults);
    if results.None? || |results.value| == 0 {
      return "";
    }
    var docs := results.value;
    var memories: seq<string> := [];
    for i := 0 to |docs|
      invariant memories == Memories(docs[..i])
    {
      assert docs[..i + 1][..i] == docs[..i];
      var doc := docs[i];
      if doc.Some? && !IsBlank(doc.value) {
        memories := memories + [SectionMarker + " " + NatToString(i + 1) + ":\n" + doc.value + "\n"];
      }
    }
    assert docs[..|docs|] == docs;
    if |memories| > 0 {
      memory := Join(memories, "\n");
    } else {
      memory := "";
    }
  }

  // ---------------------------------------------------------------------------
  // Deduplication against the recent history
  // ---------------------------------------------------------------------------

  /** What the history scan has collected so far: the identifiers, the
      (subject, sender) pairs, and the current subject and sender. */
  datatype Scan = Scan(ids: set<string>, pairs: set<(string, string)>, subject: Option<string>, sender: Option<string>)

  /** Python truthiness of an optional string. */
  predicate Truthy(s: Option<string>) {
    s.Some? && s.value != ""
  }

  /** `line.split(tag)[1].split('\n')[0].strip()`, or `None` where indexing the
      split raises because `tag` does not occur in `line`. */
  function FieldAfter(line: string, tag: string): (r: Option<string>)
    requires tag != []
    ensures r.Some? <==> Contains(line, tag)
  {
    var parts := Split(line, tag);
    if |parts| > 1 then Some(Strip(Split(parts[1], "\n")[0])) else None
  }

  /** One step of the history scan over one line: a non-empty subject after
      'Subject:' is recorded and becomes current, a non-empty sender after
      'From:' is recorded, becomes current and is paired with the current
      subject, and an 'email:' line records the current subject once more. */
  function ScanLine(st: Scan, line: string): Scan {
    var lower := Lower(line);
    var subject := if Contains(lower, SubjectKey) then FieldAfter(line, SubjectTag) else None;
    var st1 :=
      if Truthy(subject) then
        st.(ids := st.ids + {"subject:" + Lower(subject.value)}, subject := Some(Lower(subject.value)))
      else st;
    var sender := if Contains(lower, FromKey) then FieldAfter(line, FromTag) else None;
    var st2 :=
      if Truthy(sender) then
        var sn := Lower(sender.value);
        st1.(ids := st1.ids + {"sender:" + sn},
             sender := Some(sn),
             pairs := if Truthy(st1.subject) then st1.pairs + {(st1.subject.value, sn)} else st1.pairs)
      else st1;
    if Contains(lower, EmailKey) && Truthy(st2.subject) then
      st2.(ids := st2.ids + {"email_subject:" + st2.subject.value})
    else st2
  }

  /** The scan over the history's lines, first to last. */
  function ScanLines(lines: seq<string>): Scan
    decreases |lines|
  {
    if |lines| == 0 then Scan({}, {}, None, None)
    else ScanLine(ScanLines(lines[..|lines| - 1]), lines[|lines| - 1])
  }

  /** The last subject and the last sender named in a memory section, each
      stripped and lowercased (and possibly empty). */
  function SectionFields(lines: seq<string>): (Option<string>, Option<string>)
    decreases |lines|
  {
    if |lines| == 0 then (None, None)
    else
      var prev := SectionFields(lines[..|lines| - 1]);
      var line := lines[|lines| - 1];
      var lower := Lower(line);
      var subject := if Contains(lower, SubjectKey) then FieldAfter(line, SubjectTag) else None;
      var sender := if Contains(lower, FromKey) then FieldAfter(line, FromTag) else None;
      (if subject.Some? then Some(Lower(subject.value)) else prev.0,
       if sender.Some? then Some(Lower(sender.value)) else prev.1)
  }

  /** `identifier.split(':')[1]`: the text between the first and the second colon. */
  function IdentifierValue(id: string): string
    requires |Split(id, ":")| > 1
  {
    Split(id, ":")[1]
  }

  /** Identifier `id` marks a section (lowercased) as already known. */
  predicate Hits(id: string, sectionLower: string) {
    id != "" && |Split(id, ":")| > 1 && Contains(sectionLower, IdentifierValue(id))
  }

  /** A memory section repeats the history when the value of some history
      identifier occurs in it, when its own (subject, sender) pair was seen in
      the history, or when it mentions both the history's last subject and
      its last sender. */
  predicate IsDuplicate(scan: Scan, section: string) {
    var lower := Lower(section);
    var fields := SectionFields(Split(section, "\n"));
    || (exists id :: id in scan.ids && Hits(id, lower))
    || (Truthy(fields.0) && Truthy(fields.1) && (fields.0.value, fields.1.value) in scan.pairs)
    || (Truthy(scan.subject) && Truthy(scan.sender)
        && Contains(lower, scan.subject.value) && Contains(lower, scan.sender.value))
  }

  /** A section survives when it is not blank and does not repeat the history. */
  predicate Kept(scan: Scan, section: string) {
    !IsBlank(section) && !IsDuplicate(scan, section)
  }

  /** The surviving sections, in order, each with its marker restored. */
  function KeptSections(scan: Scan, sections: seq<string>): seq<string>
    decreases |sections|
  {
    if |sections| == 0 then []
    else
      var n := |sections| - 1;
      KeptSections(scan, sections[..n]) + (if Kept(scan, sections[n]) then [SectionMarker + sections[n]] else [])
  }

  /** The positions at which `flags` holds, in increasing order. */
  function Positions(flags: seq<bool>): (idx: seq<nat>)
    ensures forall k :: 0 <= k < |idx| ==> idx[k] < |flags| && flags[idx[k]]
    ensures forall k, l :: 0 <= k < l < |idx| ==> idx[k] < idx[l]
    ensures forall i :: 0 <= i < |flags| && flags[i] ==> i in idx
    decreases |flags|
  {
    if |flags| == 0 then []
    else
      var n := |flags| - 1;
      var prev := Positions(flags[..n]);
      assert forall i :: 0 <= i < n ==> flags[..n][i] == flags[i];
      prev + (if flags[n] then [n] else [])
  }

  /** Which sections survive. */
  function KeptFlags(scan: Scan, sections: seq<string>): (flags: seq<bool>)
    ensures |flags| == |sections|
    ensures forall i :: 0 <= i < |sections| ==> flags[i] == Kept(scan, sections[i])
  {
    seq(|sections|, i requires 0 <= i < |sections| => Kept(scan, sections[i]))
  }

  /** The positions of the surviving sections. */
  function KeptIndices(scan: Scan, sections: seq<string>): (idx: seq<nat>)
    ensures forall k :: 0 <= k < |idx| ==> idx[k] < |sections| && Kept(scan, sections[idx[k]])
    ensures forall k, l :: 0 <= k < l < |idx| ==> idx[k] < idx[l]
    ensures forall i :: 0 <= i < |sections| && Kept(scan, sections[i]) ==> i in idx
  {
    Positions(KeptFlags(scan, sections))
  }

  /** The surviving sections are exactly the sections at the kept positions,
      each prefixed by the marker again. */
  lemma {:induction false} KeptSectionsByIndex(scan: Scan, sections: seq<string>)
    ensures |KeptSections(scan, sections)| == |KeptIndices(scan, sections)|
    ensures forall k :: 0 <= k < |KeptSections(scan, sections)| ==>
              KeptSections(scan, sections)[k] == SectionMarker + sections[KeptIndices(scan, sections)[k]]
    decreases |sections|
  {
    if |sections| > 0 {
      var n := |sections| - 1;
      var prefix := sections[..n];
      KeptSectionsByIndex(scan, prefix);
      var flags := KeptFlags(scan, sections);
      assert KeptFlags(scan, prefix) == flags[..n];
      var prevIdx := KeptIndices(scan, prefix);
      assert KeptIndices(scan, sections) == prevIdx + (if flags[n] then [n] else []);
      var prevKept := KeptSections(scan, prefix);
      forall k | 0 <= k < |prevKept|
        ensures prevKept[k] == SectionMarker + sections[prevIdx[k]]
      {
        assert prefix[prevIdx[k]] == sections[prevIdx[k]];
      }
    }
  }

  /** `_deduplicate_memory(sql_history, vectordb_memory)` as a value: a blank
      memory gives (history, ''), a blank history gives ('', memory), and
      otherwise the history is kept and the memory is cut at every
      'Relevant Past Email' into sections of which only those that survive are
      joined back by newlines. */
  function Deduplicated(sqlHistory: string, vectordbMemory: string): (r: (string, string))
    ensures r.0 == sqlHistory || (IsBlank(sqlHistory) && r.0 == "")
    ensures IsBlank(vectordbMemory) ==> r.1 == ""
  {
    if IsBlank(vectordbMemory) then (sqlHistory, "")
    else if IsBlank(sqlHistory) then ("", vectordbMemory)
    else
      var kept := KeptSections(ScanLines(Split(sqlHistory, "\n")), Split(vectordbMemory, SectionMarker));
      (sqlHistory, if |kept| > 0 then Join(kept, "\n") else "")
  }

  /** The history scan of `_deduplicate_memory`. */
  method ScanHistory(sqlLines: seq<string>) returns (scan: Scan)
    ensures scan == ScanLines(sqlLines)
  {
    var sqlIdentifiers: set<string> := {};
    var sqlSubjectSenderPairs: set<(string, string)> := {};
    var currentSubject: Option<string> := None;
    var currentSender: Option<string> := None;
    for i := 0 to |sqlLines|
      invariant Scan(sqlIdentifiers, sqlSubjectSenderPairs, currentSubject, currentSender) == ScanLines(sqlLines[..i])
    {
      assert sqlLines[..i + 1][..i] == sqlLines[..i];
      var line := sqlLines[i];
      var lineLower := Lower(line);
      if Contains(lineLower, SubjectKey) {
        var subject := FieldAfter(line, SubjectTag);
        if subject.Some? && subject.value != "" {
          sqlIdentifiers := sqlIdentifiers + {"subject:" + Lower(subject.value)};
          currentSubject := Some(Lower(subject.value));
        }
      }
      if Contains(lineLower, FromKey) {
        var sender := FieldAfter(line, FromTag);
        if sender.Some? && sender.value != "" {
          sqlIdentifiers := sqlIdentifiers + {"sender:" + Lower(sender.value)};
          currentSender := Some(Lower(sender.value));
          if currentSubject.Some? && currentSubject.value != "" {
            sqlSubjectSenderPairs := sqlSubjectSenderPairs + {(currentSubject.value, currentSender.value)};
          }
        }
      }
      if Contains(lineLower, EmailKey) && currentSubject.Some? && currentSubject.value != "" {
        sqlIdentifiers := sqlIdentifiers + {"email_subject:" + currentSubject.value};
      }
    }
    assert sqlLines[..|sqlLines|] == sqlLines;
    scan := Scan(sqlIdentifiers, sqlSubjectSenderPairs, currentSubject, currentSender);
  }

  /** The duplicate test of one non-blank section in `_deduplicate_memory`. */
  method SectionIsDuplicate(scan: Scan, section: string) returns (isDuplicate: bool)
    ensures isDuplicate == IsDuplicate(scan, section)
  {
    isDuplicate := false;
    var sectionLower := Lower(section);
    var sectionSubject: Option<string> := None;
    var sectionSender: Option<string> := None;
    var sectionLines := Split(section, "\n");
    for j := 0 to |sectionLines|
      invariant (sectionSubject, sectionSender) == SectionFields(sectionLines[..j])
    {
      assert sectionLines[..j + 1][..j] == sectionLines[..j];
      var line := sectionLines[j];
      var lineLower := Lower(line);
      if Contains(lineLower, SubjectKey) {
        var subject := FieldAfter(line, SubjectTag);
        if subject.Some? {
          sectionSubject := Some(Lower(subject.value));
        }
      }
      if Contains(lineLower, FromKey) {
        var sender := FieldAfter(line, FromTag);
        if sender.Some? {
          sectionSender := Some(Lower(sender.value));
        }
      }
    }
    assert sectionLines[..|sectionLines|] == sectionLines;
    var remaining := scan.ids;
    while remaining != {} && !isDuplicate
      invariant remaining <= scan.ids
      invariant isDuplicate ==> exists id :: id in scan.ids && Hits(id, sectionLower)
      invariant !isDuplicate ==> forall id :: id in scan.ids && id !in remaining ==> !Hits(id, sectionLower)
      decreases |remaining|
    {
      var identifier :| identifier in remaining;
      if identifier != "" && |Split(identifier, ":")| > 1 {
        var identifierValue := Split(identifier, ":")[1];
        if Contains(sectionLower, identifierValue) {
          isDuplicate := true;
        }
      }
      remaining := remaining - {identifier};
    }
    if !isDuplicate && Truthy(sectionSubject) && Truthy(sectionSender) {
      if (sectionSubject.value, sectionSender.value) in scan.pairs {
        isDuplicate := true;
      }
    }
    if !isDuplicate && Truthy(scan.subject) && Truthy(scan.sender) {
      if Contains(sectionLower, scan.subject.value) && Contains(sectionLower, scan.sender.value) {
        isDuplicate := true;
      }
    }
  }

  /** `_deduplicate_memory(sql_history, vectordb_memory)`. */
  method DeduplicateMemory(sqlHistory: string, vectordbMemory: string) returns (history: string, memory: string)
    ensures (history, memory) == Deduplicated(sqlHistory, vectordbMemory)
  {
    if IsBlank(vectordbMemory) {
      return sqlHistory, "";
    }
    if IsBlank(sqlHistory) {
      return "", vectordbMemory;
    }
    var scan := ScanHistory(Split(sqlHistory, "\n"));
    var vectordbSections := Split(vectordbMemory, SectionMarker);
    var filteredSections: seq<string> := [];
    for k := 0 to |vectordbSections|
      invariant filteredSections == KeptSections(scan, vectordbSections[..k])
    {
      assert vectordbSections[..k + 1][..k] == vectordbSections[..k];
      var section := vectordbSections[k];
      if !IsBlank(section) {
        var isDuplicate := SectionIsDuplicate(scan, section);
        if !isDuplicate {
          filteredSections := filteredSections + [SectionMarker + section];
        }
      }
    }
    assert vectordbSections[..|vectordbSections|] == vectordbSections;
    if |filteredSections| > 0 {
      return sqlHistory, Join(filteredSections, "\n");
    }
    return sqlHistory, "";
  }

  /** What deduplication returns: the blank cases, the history untouched
      otherwise, and a memory made of surviving sections only, in their
      original order, none of which is blank or repeats the history, with
      every section that neither is blank nor repeats the history kept. */
  lemma DeduplicatedKeepsHistoryAndFilters(sqlHistory: string, vectordbMemory: string)
    ensures IsBlank(vectordbMemory) ==> Deduplicated(sqlHistory, vectordbMemory) == (sqlHistory, "")
    ensures !IsBlank(vectordbMemory) && IsBlank(sqlHistory) ==>
              Deduplicated(sqlHistory, vectordbMemory) == ("", vectordbMemory)
    ensures !IsBlank(vectordbMemory) && !IsBlank(sqlHistory) ==>
              var scan := ScanLines(Split(sqlHistory, "\n"));
              var sections := Split(vectordbMemory, SectionMarker);
              var idx := KeptIndices(scan, sections);
              && Deduplicated(sqlHistory, vectordbMemory).0 == sqlHistory
              && Deduplicated(sqlHistory, vectordbMemory).1 ==
                 Join(seq(|idx|, k requires 0 <= k < |idx| => SectionMarker + sections[idx[k]]), "\n")
              && (forall k :: 0 <= k < |idx| ==> Kept(scan, sections[idx[k]]))
              && (forall k, l :: 0 <= k < l < |idx| ==> idx[k] < idx[l])
              && (forall i :: 0 <= i < |sections| && Kept(scan, sections[i]) ==> i in idx)
  {
    if !IsBlank(vectordbMemory) && !IsBlank(sqlHistory) {
      var scan := ScanLines(Split(sqlHistory, "\n"));
      var sections := Split(vectordbMemory, SectionMarker);
      var idx := KeptIndices(scan, sections);
      KeptSectionsByIndex(scan, sections);
      assert KeptSections(scan, sections) == seq(|idx|, k requires 0 <= k < |idx| => SectionMarker + sections[idx[k]]);
    }
  }

  // --- identifiers the history yields -------------------------------------

  /** The scan only ever adds identifiers. */
  lemma {:induction false} ScanLinesIdsGrow(lines: seq<string>, n: nat)
    requires n <= |lines|
    ensures ScanLines(lines[..n]).ids <= ScanLines(lines).ids
    decreases |lines| - n
  {
    if n < |lines| {
      var m := |lines| - 1;
      assert lines[..m][..n] == lines[..n];
      ScanLinesIdsGrow(lines[..m], n);
    } else {
      assert lines[..n] == lines;
    }
  }

  lemma LowerOccurs(s: string, t: string, j: int)
    requires OccursAt(s, t, j)
    ensures OccursAt(Lower(s), Lower(t), j)
  {
    assert Lower(s)[j..j + |t|] == Lower(t) by {
      forall k | 0 <= k < |t| ensures Lower(s)[j..j + |t|][k] == Lower(t)[k] {
        assert s[j..j + |t|][k] == t[k];
      }
    }
  }

  /** A line holding `tag` holds its lowercase form once lowercased. */
  lemma LowerContains(s: string, t: string)
    requires Contains(s, t)
    ensures Contains(Lower(s), Lower(t))
  {
    var j := IndexOf(s, t).value;
    LowerOccurs(s, t, j);
    ContainsIn(Lower(s), Lower(t), j);
  }

  lemma LowerTags()
    ensures Lower(SubjectTag) == SubjectKey
    ensures Lower(FromTag) == FromKey
  {
    assert Lower(SubjectTag)[0] == 's';
    assert Lower(FromTag)[0] == 'f';
  }

  /** A string with a colon has at least two pieces when split at colons. */
  lemma ColonSplits(s: string, i: nat)
    requires i < |s| && s[i] == ':'
    ensures |Split(s, ":")| > 1
  {
    assert OccursAt(s, ":", i) by {
      assert s[i..i + 1] == [s[i]];
    }
    ContainsIn(s, ":", i);
  }

  /** An identifier of the history whose value occurs in a section makes it a duplicate. */
  lemma HitMarksDuplicate(scan: Scan, id: string, section: string)
    requires id in scan.ids && Hits(id, Lower(section))
    ensures IsDuplicate(scan, section)
  {
  }

  /** The scan of the lines up to and including line `j` has processed line `j`. */
  lemma ScanThrough(lines: seq<string>, j: nat)
    requires j < |lines|
    ensures ScanLines(lines[..j + 1]) == ScanLine(ScanLines(lines[..j]), lines[j])
  {
    var upTo := lines[..j + 1];
    assert upTo[..|upTo| - 1] == lines[..j];
    assert upTo[|upTo| - 1] == lines[j];
  }

  /** A line with a non-empty subject records its identifier. */
  lemma ScanLineRecordsSubject(st: Scan, line: string)
    requires Contains(Lower(line), SubjectKey) && Truthy(FieldAfter(line, SubjectTag))
    ensures "subject:" + Lower(FieldAfter(line, SubjectTag).value) in ScanLine(st, line).ids
  {
  }

  /** A line with a non-empty sender records its identifier. */
  lemma ScanLineRecordsSender(st: Scan, line: string)
    requires Contains(Lower(line), FromKey) && Truthy(FieldAfter(line, FromTag))
    ensures "sender:" + Lower(FieldAfter(line, FromTag).value) in ScanLine(st, line).ids
  {
  }

  /** Every history line with a non-empty subject after 'Subject:' yields the
      identifier 'subject:<subject lowercased>', and a memory section
      containing that identifier's value (up to its next colon) is a duplicate. */
  lemma HistorySubjectMarksDuplicates(lines: seq<string>, j: nat, section: string)
    requires j < |lines| && Truthy(FieldAfter(lines[j], SubjectTag))
    ensures var id := "subject:" + Lower(FieldAfter(lines[j], SubjectTag).value);
            && id in ScanLines(lines).ids
            && |Split(id, ":")| > 1
            && (Contains(Lower(section), IdentifierValue(id)) ==> IsDuplicate(ScanLines(lines), section))
  {
    var line := lines[j];
    ScanThrough(lines, j);
    ScanLinesIdsGrow(lines, j + 1);
    LowerTags();
    LowerContains(line, SubjectTag);
    var subject := Lower(FieldAfter(line, SubjectTag).value);
    var id := "subject:" + subject;
    assert id[7] == ':';
    ColonSplits(id, 7);
    ScanLineRecordsSubject(ScanLines(lines[..j]), line);
    if Contains(Lower(section), IdentifierValue(id)) {
      HitMarksDuplicate(ScanLines(lines), id, section);
    }
  }

  /** Every history line with a non-empty sender after 'From:' yields the
      identifier 'sender:<sender lowercased>', and a memory section containing
      that identifier's value (up to its next colon) is a duplicate. */
  lemma HistorySenderMarksDuplicates(lines: seq<string>, j: nat, section: string)
    requires j < |lines| && Truthy(FieldAfter(lines[j], FromTag))
    ensures var id := "sender:" + Lower(FieldAfter(lines[j], FromTag).value);
            && id in ScanLines(lines).ids
            && |Split(id, ":")| > 1
            && (Contains(Lower(section), IdentifierValue(id)) ==> IsDuplicate(ScanLines(lines), section))
  {
    var line := lines[j];
    ScanThrough(lines, j);
    ScanLinesIdsGrow(lines, j + 1);
    LowerTags();
    LowerContains(line, FromTag);
    var sender := Lower(FieldAfter(line, FromTag).value);
    var id := "sender:" + sender;
    assert id[6] == ':';
    ColonSplits(id, 6);
    ScanLineRecordsSender(ScanLines(lines[..j]), line);
    if Contains(Lower(section), IdentifierValue(id)) {
      HitMarksDuplicate(ScanLines(lines), id, section);
    }
  }

  /** Splitting at a single character: a prefix free of it is the first piece. */
  lemma SplitAtFirstColon(p: string, rest: string)
    requires forall k :: 0 <= k < |p| ==> p[k] != ':'
    ensures Split(p + ":" + rest, ":") == [p] + Split(rest, ":")
  {
    var s := p + ":" + rest;
    assert OccursAt(s, ":", |p|) by {
      assert s[|p|..|p| + 1] == [s[|p|]];
    }
    forall j | 0 <= j < |p| ensures !OccursAt(s, ":", j) {
      assert s[j..j + 1] == [s[j]];
    }
    assert IndexOf(s, ":") == Some(|p|);
    assert s[..|p|] == p;
    assert s[|p| + 1..] == rest;
  }

  /** A string free of colons splits into itself alone. */
  lemma SplitNoColon(p: string)
    requires forall k :: 0 <= k < |p| ==> p[k] != ':'
    ensures Split(p, ":") == [p]
  {
    forall j | 0 <= j ensures !OccursAt(p, ":", j) {
      if j + 1 <= |p| {
        assert p[j..j + 1] == [p[j]];
      }
    }
    assert IndexOf(p, ":").None?;
  }

  /** An identifier's value stops at the first colon inside the subject or
      sender: a history subject 'Re: Budget' yields the value 're', so every
      section containing the letters 're' anywhere is then dropped. */
  lemma IdentifierValueStopsAtColon(key: string, head: string, tail: string)
    requires key != [] && forall k :: 0 <= k < |key| ==> key[k] != ':'
    requires forall k :: 0 <= k < |head| ==> head[k] != ':'
    ensures |Split(key + ":" + head + ":" + tail, ":")| > 1
    ensures IdentifierValue(key + ":" + head + ":" + tail) == head
  {
    assert key + ":" + head + ":" + tail == key + ":" + (head + ":" + tail);
    SplitAtFirstColon(key, head + ":" + tail);
    SplitAtFirstColon(head, tail);
  }

  // ---------------------------------------------------------------------------
  // Token limit and summarisation
  // ---------------------------------------------------------------------------

  /** `_check_token_limit(text, max_tokens)`: `tokenCount` is the counter's
      result, `None` where it raises; the limit defaults to the configured
      one. With a count, the text exceeds when the count is above the limit;
      without one, when it has more than four characters per allowed token. */
  function CheckTokenLimit(text: string, maxTokens: Option<int>, configMaxTokens: int, tokenCount: Option<nat>): (exceeds: bool)
    ensures tokenCount.Some? ==> (exceeds <==> tokenCount.value > maxTokens.GetOr(configMaxTokens))
    ensures tokenCount.None? ==> (exceeds <==> |text| > 4 * maxTokens.GetOr(configMaxTokens))
  {
    var limit := if maxTokens.None? then configMaxTokens else maxTokens.value;
    match tokenCount
    case Some(count) => count > limit
    case None => |text| > limit * 4
  }

  /** A text over a limit is over every smaller limit. */
  lemma CheckTokenLimitAntitone(text: string, small: int, large: int, configMaxTokens: int, tokenCount: Option<nat>)
    requires small <= large
    ensures CheckTokenLimit(text, Some(large), configMaxTokens, tokenCount) ==>
              CheckTokenLimit(text, Some(small), configMaxTokens, tokenCount)
  {
  }

  const TruncationMarker := "\n\n[... truncated middle section ...]\n\n"
  const TruncationThreshold: nat := 2000

  /** Python's `s[:n]` for any integer `n`: a negative `n` counts from the end. */
  function PySliceTo(s: string, n: int): (r: string)
    ensures |r| <= |s| && r == s[..|r|]
  {
    if n >= |s| then s
    else if n >= 0 then s[..n]
    else if -n >= |s| then []
    else s[..|s| + n]
  }

  const MemorySummaryIntro := "Summarize the following email memory to reduce token count while keeping the most important context and key information:\n\n"
  const MemorySummaryFocus := "\n\nProvide a concise summary focusing on:\n- Key topics and subjects discussed\n- Important decisions or agreements\n- Action items or follow-ups\n- Critical details that might be needed for future responses\n\nKeep the summary under "
  const MemorySummaryClose := " tokens while preserving essential context."

  /** The request sent to the model to summarise a memory text: at most
      `(max_tokens // 2) * 4` characters of it, right after the request, the
      whole text when it fits. */
  function MemorySummaryPrompt(memoryText: string, maxTokens: int): (r: string)
    ensures |memoryText| <= (maxTokens / 2) * 4 ==> OccursAt(r, memoryText, |MemorySummaryIntro|)
    ensures 0 <= (maxTokens / 2) * 4 < |memoryText| ==> OccursAt(r, memoryText[..(maxTokens / 2) * 4], |MemorySummaryIntro|)
  {
    var targetTokens := maxTokens / 2;
    var charsToInclude := if |memoryText| < targetTokens * 4 then |memoryText| else targetTokens * 4;
    MemorySummaryIntro + PySliceTo(memoryText, charsToInclude) + MemorySummaryFocus + IntToString(targetTokens) + MemorySummaryClose
  }

  /** The first 40% and the last 40% of the text around a marker. */
  function TruncateMiddle(text: string): (r: string)
    ensures var n := |text|;
            && |r| == (4 * n) / 10 + |TruncationMarker| + (n - (6 * n) / 10)
            && r[..(4 * n) / 10] == text[..(4 * n) / 10]
            && r[|r| - (n - (6 * n) / 10)..] == text[(6 * n) / 10..]
  {
    var n := |text|;
    text[..(4 * n) / 10] + TruncationMarker + text[(6 * n) / 10..]
  }

  /** `_summarize_memory(memory_text)`. `summarize` is the model: `None` when
      any step of the summarising call raises, else the summary. An empty
      text stays empty; on failure a text over 2000 characters loses its
      middle fifth and any other text is kept as it is. */
  function SummarizeMemory(memoryText: string, maxTokens: int, summarize: string -> Option<string>): (r: string)
    ensures memoryText == [] ==> r == []
    ensures memoryText != [] && summarize(MemorySummaryPrompt(memoryText, maxTokens)).Some? ==>
              r == summarize(MemorySummaryPrompt(memoryText, maxTokens)).value
    ensures memoryText != [] && summarize(MemorySummaryPrompt(memoryText, maxTokens)).None? ==>
              r == if |memoryText| > TruncationThreshold then TruncateMiddle(memoryText) else memoryText
  {
    if memoryText == [] then ""
    else match summarize(MemorySummaryPrompt(memoryText, maxTokens))
      case Some(summary) => summary
      case None =>
        if |memoryText| > 2000 then TruncateMiddle(memoryText) else memoryText
  }

  /** The truncation fallback always shortens a text it applies to, keeping
      its beginning and its end. */
  lemma TruncationShortens(text: string)
    requires |text| > TruncationThreshold
    ensures |TruncateMiddle(text)| < |text|
    ensures var n := |text|; TruncateMiddle(text)[..(4 * n) / 10] == text[..(4 * n) / 10]
  {
    var n := |text|;
    assert |TruncationMarker| == 38;
    assert (6 * n) / 10 - (4 * n) / 10 > 38;
  }
}
