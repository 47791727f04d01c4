/**
 * Keyword extraction: the keyword set a document derives from its
 * configured source fields, the `updateKeywords` instance method, the
 * pre-save hook that keeps the stored keyword set current, and the
 * `setKeywords` rebuild of a whole collection.
 */
module Keywords {
  import opened Wrappers
  import opened Plugin
  import opened Sequences

  /** `doc.get(field)`: an absent field reads as `Other` (undefined). */
  function FieldOf(values: map<string, FieldValue>, field: string): FieldValue {
    if field in values then values[field] else Other
  }

  /** One field's contribution: a string as is, an array space-joined, else ''. */
  function FieldText(v: FieldValue): string {
    match v
    case Text(s) => s
    case List(items) => Join(items, " ")
    case Other => ""
  }

  /** The contributions of `fields`, in configured order. */
  function FieldTexts(fields: seq<string>, values: map<string, FieldValue>): (texts: seq<string>)
    ensures |texts| == |fields|
    ensures forall i :: 0 <= i < |fields| ==> texts[i] == FieldText(FieldOf(values, fields[i]))
  {
    seq(|fields|, i requires 0 <= i < |fields| => FieldText(FieldOf(values, fields[i])))
  }

  /** The text handed to the stemmer: the contributions joined with spaces. */
  function KeywordText(fields: seq<string>, values: map<string, FieldValue>): string {
    Join(FieldTexts(fields, values), " ")
  }

  /** `processKeywords`: the stems of the keyword text, each once, first occurrence first. */
  function ProcessKeywords(plugin: Config, values: map<string, FieldValue>): (ks: seq<Stem>)
    ensures NoDuplicates(ks)
    ensures forall i :: 0 <= i < |ks| ==> ks[i] in plugin.tokenize(KeywordText(plugin.fields, values))
    ensures forall s :: s in plugin.tokenize(KeywordText(plugin.fields, values)) ==> s in ks
  {
    Unique(plugin.tokenize(KeywordText(plugin.fields, values)))
  }

  /** Fields' contributions appear in configured order, separated by one space. */
  lemma {:induction false} KeywordTextInFieldOrder(a: seq<string>, b: seq<string>, values: map<string, FieldValue>)
    requires a != [] && b != []
    ensures KeywordText(a + b, values) == KeywordText(a, values) + " " + KeywordText(b, values)
  {
    assert FieldTexts(a + b, values) == FieldTexts(a, values) + FieldTexts(b, values);
    JoinAppend(FieldTexts(a, values), FieldTexts(b, values), " ");
  }

  /** Keywords depend on the configured fields only. */
  lemma {:induction false} KeywordsDependOnConfiguredFields(plugin: Config, v1: map<string, FieldValue>, v2: map<string, FieldValue>)
    requires forall f :: f in plugin.fields ==> FieldOf(v1, f) == FieldOf(v2, f)
    ensures ProcessKeywords(plugin, v1) == ProcessKeywords(plugin, v2)
  {
    assert FieldTexts(plugin.fields, v1) == FieldTexts(plugin.fields, v2) by {
      forall i | 0 <= i < |plugin.fields|
        ensures FieldTexts(plugin.fields, v1)[i] == FieldTexts(plugin.fields, v2)[i]
      {
        assert plugin.fields[i] in plugin.fields;
      }
    }
  }

  /**
   * A document of a collection the plugin is installed on. `values` holds its
   * source fields, `keywords` its keyword attribute; `persistedValues` and
   * `persistedKeywords` are what the store holds after the last successful save.
   */
  class Document {
    const id: Id
    const plugin: Config
    var values: map<string, FieldValue>
    var keywords: seq<Stem>
    var isNew: bool
    var modified: set<string>
    var persistedValues: map<string, FieldValue>
    var persistedKeywords: seq<Stem>
    /** The field values the current keyword attribute was computed from. */
    ghost var basis: map<string, FieldValue>

    /**
     * Unless the document is new, its keywords were computed from `basis`,
     * and every configured field not marked modified still has its basis value.
     */
    ghost predicate Valid()
      reads this
    {
      !isNew ==>
        keywords == ProcessKeywords(plugin, basis) &&
        forall f :: f in plugin.fields && f !in modified ==> FieldOf(values, f) == FieldOf(basis, f)
    }

    /** `new Model(values)`: a new, unsaved document with no keywords yet. */
    constructor (id: Id, plugin: Config, values: map<string, FieldValue>)
      ensures Valid()
      ensures this.id == id && this.plugin == plugin && this.values == values
      ensures isNew && modified == {} && keywords == []
    {
      this.id := id;
      this.plugin := plugin;
      this.values := values;
      keywords := [];
      isNew := true;
      modified := {};
      persistedValues := map[];
      persistedKeywords := [];
      basis := values;
    }

    /** `doc.set(field, v)`: the field is marked modified when its value changes. */
    method Set(field: string, v: FieldValue)
      modifies this`values, this`modified
      ensures old(Valid()) ==> Valid()
      ensures values == old(values)[field := v]
      ensures modified == if FieldOf(old(values), field) != v then old(modified) + {field} else old(modified)
    {
      if FieldOf(values, field) != v {
        modified := modified + {field};
      }
      values := values[field := v];
    }

    /** `updateKeywords`: recompute the keyword attribute from the current fields. */
    method UpdateKeywords()
      modifies this`keywords, this`basis
      ensures keywords == ProcessKeywords(plugin, values)
      ensures basis == values
      ensures Valid()
    {
      keywords := ProcessKeywords(plugin, values);
      basis := values;
    }

    /** Whether the pre-save hook recomputes: the document is new or a configured field is modified. */
    predicate NeedsKeywords()
      reads this
    {
      isNew || exists f :: f in plugin.fields && f in modified
    }

    /** The keyword attribute reflects the current field values and the invariant holds. */
    ghost predicate KeywordsCurrent()
      reads this
    {
      Valid() && keywords == ProcessKeywords(plugin, values)
    }

    /** The store holds the current field values with matching keywords. */
    ghost predicate PersistedCurrent()
      reads this
    {
      persistedValues == values && persistedKeywords == ProcessKeywords(plugin, values)
    }

    /** The pre-save hook: recompute iff new or some configured field is modified. */
    method PreSave()
      modifies this`keywords, this`basis
      ensures keywords == if NeedsKeywords() then ProcessKeywords(plugin, values) else old(keywords)
      ensures basis == if NeedsKeywords() then values else old(basis)
      ensures old(Valid()) ==> Valid() && keywords == ProcessKeywords(plugin, values)
    {
      if NeedsKeywords() {
        UpdateKeywords();
      } else if Valid() {
        KeywordsDependOnConfiguredFields(plugin, values, basis);
      }
    }

    /**
     * `doc.save`: runs the pre-save hook, then writes the document unless the
     * store reports `failure`; a written document is no longer new or modified.
     */
    method Save(failure: Option<DbError>) returns (ok: bool)
      modifies this`keywords, this`basis, this`isNew, this`modified,
               this`persistedValues, this`persistedKeywords
      ensures ok <==> failure.None?
      ensures keywords == if old(NeedsKeywords()) then ProcessKeywords(plugin, values) else old(keywords)
      ensures ok ==> !isNew && modified == {} && persistedValues == values && persistedKeywords == keywords
      ensures !ok ==> isNew == old(isNew) && modified == old(modified)
                      && persistedValues == old(persistedValues) && persistedKeywords == old(persistedKeywords)
      ensures old(Valid()) ==> Valid()
      ensures old(Valid()) && ok ==> persistedKeywords == ProcessKeywords(plugin, persistedValues)
    {
      ghost var wasValid := Valid();
      ghost var recomputed := NeedsKeywords();
      PreSave();
      ok := failure.None?;
      if ok {
        if wasValid && !recomputed {
          assert forall f :: f in plugin.fields ==> f !in modified;
        }
        isNew := false;
        modified := {};
        persistedValues := values;
        persistedKeywords := keywords;
      }
    }
  }

  /** One observable step of `setKeywords`: a document's save finished, or the callback ran. */
  datatype RebuildEvent = Saved(id: Id, ok: bool) | Completed(error: Option<DbError>)

  /**
   * Editing a configured field of any document, stale keywords included, and
   * saving it: the hook recomputes the keywords, and a successful save
   * persists keywords that match the persisted values.
   */
  method EditAndSave(doc: Document, field: string, v: FieldValue, failure: Option<DbError>) returns (ok: bool)
    requires field in doc.plugin.fields && FieldOf(doc.values, field) != v
    modifies doc
    ensures ok <==> failure.None?
    ensures doc.values == old(doc.values)[field := v]
    ensures doc.keywords == ProcessKeywords(doc.plugin, doc.values)
    ensures ok ==> doc.PersistedCurrent()
  {
    doc.Set(field, v);
    ok := doc.Save(failure);
  }

  /** A document after its rebuild: keywords current, and persisted too when its save succeeded. */
  ghost predicate Rebuilt(d: Document, saved: bool)
    reads d
  {
    d.KeywordsCurrent() && (saved ==> d.PersistedCurrent())
  }

  /** One document of `setKeywords`: `doc.updateKeywords()` followed by `doc.save`. */
  method RebuildOne(doc: Document, failure: Option<DbError>) returns (ok: bool)
    modifies doc
    ensures ok <==> failure.None?
    ensures doc.values == old(doc.values)
    ensures doc.KeywordsCurrent()
    ensures ok ==> doc.PersistedCurrent()
    ensures forall saved :: old(Rebuilt(doc, saved)) ==> Rebuilt(doc, saved)
    ensures !ok ==> doc.persistedValues == old(doc.persistedValues)
                    && doc.persistedKeywords == old(doc.persistedKeywords)
  {
    doc.UpdateKeywords();
    ok := doc.Save(failure);
  }

  /**
   * `setKeywords`: recompute and save the keywords of every fetched document,
   * then report completion once, whatever the individual saves did. The fetch
   * error, if any, is reported instead; `saveError(i)` is the store's answer to
   * the i-th save.
   */
  method SetKeywords(docs: seq<Document>, fetchError: Option<DbError>, saveError: nat -> Option<DbError>)
    returns (events: seq<RebuildEvent>)
    modifies set d | d in docs
    ensures fetchError.Some? ==> events == [Completed(fetchError)]
    ensures fetchError.Some? ==> forall d :: d in docs ==> unchanged(d)
    ensures fetchError.None? ==> |events| == |docs| + 1 && events[|docs|] == Completed(None)
    ensures fetchError.None? ==> forall i :: 0 <= i < |docs| ==> events[i] == Saved(docs[i].id, saveError(i).None?)
    ensures fetchError.None? ==> forall i :: 0 <= i < |docs| ==>
      docs[i].values == old(docs[i].values) && docs[i].KeywordsCurrent()
    ensures fetchError.None? ==> forall i :: 0 <= i < |docs| && saveError(i).None? ==>
      docs[i].PersistedCurrent()
  {
    if fetchError.Some? {
      return [Completed(fetchError)];
    }
    events := [];
    for i := 0 to |docs|
      invariant |events| == i
      invariant forall j :: 0 <= j < i ==> events[j] == Saved(docs[j].id, saveError(j).None?)
      invariant forall j :: 0 <= j < |docs| ==> docs[j].values == old(docs[j].values)
      invariant forall j :: 0 <= j < i ==> Rebuilt(docs[j], saveError(j).None?)
    {
      var ok := RebuildOne(docs[i], saveError(i));
      events := events + [Saved(docs[i].id, ok)];
    }
    events := events + [Completed(None)];
  }
}
