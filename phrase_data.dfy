/** The static phrase dataset of src/data/phrases.ts: the language registry, the phrase table
    and the category list derived from it. */
module PhraseData {
  import opened Lists

  /** The text shown for one language and its phonetic respelling. */
  datatype Translation = Translation(text: string, pronunciation: string)

  /** One phrase: an id, a category label, the English text and a translation per language code. */
  datatype Phrase = Phrase(id: string, category: string, english: string, translations: map<string, Translation>)

  /** An entry of the language registry. */
  datatype Language = Language(code: string, name: string, flag: string)

  const Languages: seq<Language> := [
    Language("es", "Spanish", "🇪🇸"),
    Language("fr", "French", "🇫🇷"),
    Language("de", "German", "🇩🇪"),
    Language("it", "Italian", "🇮🇹"),
    Language("ja", "Japanese", "🇯🇵")
  ]

  const Phrases: seq<Phrase> := [
    Phrase("1", "Greetings", "Hello", map[
      "es" := Translation("Hola", "OH-lah"),
      "fr" := Translation("Bonjour", "bon-ZHOOR"),
      "de" := Translation("Hallo", "HAH-loh"),
      "it" := Translation("Ciao", "CHOW"),
      "ja" := Translation("こんにちは", "kon-ni-chi-wa")]),
    Phrase("2", "Greetings", "Thank you", map[
      "es" := Translation("Gracias", "GRAH-see-ahs"),
      "fr" := Translation("Merci", "mer-SEE"),
      "de" := Translation("Danke", "DAHN-keh"),
      "it" := Translation("Grazie", "GRAH-tsee-eh"),
      "ja" := Translation("ありがとう", "a-ri-ga-to")]),
    Phrase("3", "Basic Needs", "Where is the bathroom?", map[
      "es" := Translation("¿Dónde está el baño?", "DON-deh ehs-TAH el BAH-nyoh"),
      "fr" := Translation("Où sont les toilettes?", "OO sohn leh twah-LET"),
      "de" := Translation("Wo ist die Toilette?", "voh isht dee toy-LET-teh"),
      "it" := Translation("Dov'è il bagno?", "doh-VEH eel BAH-nyoh"),
      "ja" := Translation("トイレはどこですか？", "toi-re wa do-ko de-su ka")]),
    Phrase("4", "Food & Drink", "I would like water", map[
      "es" := Translation("Me gustaría agua", "meh goos-tah-REE-ah AH-gwah"),
      "fr" := Translation("Je voudrais de l'eau", "zhuh voo-DREH duh LOH"),
      "de" := Translation("Ich hätte gerne Wasser", "ikh HET-teh GER-neh VAH-ser"),
      "it" := Translation("Vorrei dell'acqua", "vor-REH dell AH-kwah"),
      "ja" := Translation("水をお願いします", "mi-zu wo o-ne-gai shi-ma-su")]),
    Phrase("5", "Directions", "How do I get to...?", map[
      "es" := Translation("¿Cómo llego a...?", "KOH-moh YEH-goh ah"),
      "fr" := Translation("Comment aller à...?", "koh-mahn tah-LAY ah"),
      "de" := Translation("Wie komme ich zu...?", "vee KOH-meh ikh tsoo"),
      "it" := Translation("Come arrivo a...?", "KOH-meh ah-REE-voh ah"),
      "ja" := Translation("...への行き方は？", "...eh no i-ki-ka-ta wa")])
  ]

  /** `phrases.map(phrase => phrase.category)`. */
  function CategoryColumn(ps: seq<Phrase>): (cs: seq<string>)
    ensures |cs| == |ps| && forall i :: 0 <= i < |ps| ==> cs[i] == ps[i].category
  {
    if ps == [] then [] else [ps[0].category] + CategoryColumn(ps[1..])
  }

  /** Spreading a `Set` built from `s` after the elements of `seen` were inserted:
      an element is emitted when it is inserted for the first time. */
  function DedupAfter<T(==,!new)>(s: seq<T>, seen: set<T>): (r: seq<T>)
    ensures forall x :: x in r <==> x in s && x !in seen
  {
    if s == [] then []
    else if s[0] in seen then DedupAfter(s[1..], seen)
    else [s[0]] + DedupAfter(s[1..], seen + {s[0]})
  }

  /** `[...new Set(s)]`. */
  function Dedup<T(==,!new)>(s: seq<T>): seq<T>
  {
    DedupAfter(s, {})
  }

  /** `categories`: the category labels of the phrases, each once. */
  function Categories(ps: seq<Phrase>): seq<string>
  {
    Dedup(CategoryColumn(ps))
  }

  /** Position of the first occurrence of `x` in `s`. */
  function IndexOf<T(==)>(s: seq<T>, x: T): (i: nat)
    requires x in s
    ensures i < |s| && s[i] == x && x !in s[..i]
  {
    if s[0] == x then 0 else 1 + IndexOf(s[1..], x)
  }

  lemma {:induction false} DedupAfterDistinct<T(!new)>(s: seq<T>, seen: set<T>)
    ensures Distinct(DedupAfter(s, seen))
  {
    if s != [] {
      DedupAfterDistinct(s[1..], seen + {s[0]});
      DedupAfterDistinct(s[1..], seen);
    }
  }

  /** The dedup emits elements in the order of their first occurrence in the input. */
  lemma {:induction false} DedupAfterOrder<T(!new)>(s: seq<T>, seen: set<T>)
    ensures forall i, j :: 0 <= i < j < |DedupAfter(s, seen)| ==>
      IndexOf(s, DedupAfter(s, seen)[i]) < IndexOf(s, DedupAfter(s, seen)[j])
  {
    if s != [] {
      var r := DedupAfter(s, seen);
      if s[0] in seen {
        DedupAfterOrder(s[1..], seen);
        forall i | 0 <= i < |r| ensures IndexOf(s, r[i]) == 1 + IndexOf(s[1..], r[i]) {}
      } else {
        var t := DedupAfter(s[1..], seen + {s[0]});
        DedupAfterOrder(s[1..], seen + {s[0]});
        assert r == [s[0]] + t;
        forall i | 0 <= i < |t| ensures IndexOf(s, t[i]) == 1 + IndexOf(s[1..], t[i]) {}
        forall i, j | 0 <= i < j < |r| ensures IndexOf(s, r[i]) < IndexOf(s, r[j]) {
          assert r[j] == t[j - 1];
          if i > 0 {
            assert r[i] == t[i - 1];
          }
        }
      }
    }
  }

  /** `categories` has no duplicates. */
  lemma CategoriesDistinct(ps: seq<Phrase>)
    ensures Distinct(Categories(ps))
  {
    DedupAfterDistinct(CategoryColumn(ps), {});
  }

  /** Every listed category is the category of some phrase, and every phrase's category is listed. */
  lemma CategoriesExact(ps: seq<Phrase>)
    ensures forall c :: c in Categories(ps) ==> exists p :: p in ps && p.category == c
    ensures forall p :: p in ps ==> p.category in Categories(ps)
  {
    var cs := CategoryColumn(ps);
    forall c | c in Categories(ps) ensures exists p :: p in ps && p.category == c {
      var k :| 0 <= k < |cs| && cs[k] == c;
      assert ps[k] in ps;
    }
    forall p | p in ps ensures p.category in Categories(ps) {
      var k :| 0 <= k < |ps| && ps[k] == p;
      assert cs[k] == p.category;
    }
  }

  /** `categories` lists the labels in the order in which they first occur among the phrases. */
  lemma CategoriesFirstOccurrenceOrder(ps: seq<Phrase>)
    ensures forall i, j :: 0 <= i < j < |Categories(ps)| ==>
      IndexOf(CategoryColumn(ps), Categories(ps)[i]) < IndexOf(CategoryColumn(ps), Categories(ps)[j])
  {
    DedupAfterOrder(CategoryColumn(ps), {});
  }

  /** The category list of the shipped table. */
  lemma ShippedCategories()
    ensures Categories(Phrases) == ["Greetings", "Basic Needs", "Food & Drink", "Directions"]
  {
    ShippedCategoryColumn();
    var g, b, f, d := "Greetings", "Basic Needs", "Food & Drink", "Directions";
    assert g[0] != b[0] && g[0] != f[0] && g[0] != d[0] && b[0] != f[0] && b[0] != d[0] && f[0] != d[0];
    assert Distinct([g] + [b, f, d]);
    DedupRepeatedHead(g, [b, f, d]);
    assert [g, g] + [b, f, d] == [g, g, b, f, d];
  }

  /** A leading element repeated once is emitted once, followed by a duplicate-free rest. */
  lemma DedupRepeatedHead<T(!new)>(x: T, rest: seq<T>)
    requires Distinct([x] + rest)
    ensures Dedup([x, x] + rest) == [x] + rest
  {
    forall i | 0 <= i < |rest| ensures rest[i] !in {x} {
      assert ([x] + rest)[0] != ([x] + rest)[i + 1];
    }
    assert Distinct(rest) by {
      forall i, j | 0 <= i < j < |rest| ensures rest[i] != rest[j] {
        assert ([x] + rest)[i + 1] != ([x] + rest)[j + 1];
      }
    }
    DedupFreshRun(rest, {x});
    DedupStepSeen(x, rest, {x});
    DedupStepFresh(x, [x] + rest, {});
    assert [x] + ([x] + rest) == [x, x] + rest && {} + {x} == {x};
  }

  /** A duplicate-free sequence none of whose elements was seen is emitted unchanged. */
  lemma {:induction false} DedupFreshRun<T(!new)>(s: seq<T>, seen: set<T>)
    requires Distinct(s)
    requires forall i :: 0 <= i < |s| ==> s[i] !in seen
    ensures DedupAfter(s, seen) == s
  {
    if s != [] {
      DedupStepFresh(s[0], s[1..], seen);
      assert [s[0]] + s[1..] == s;
      DedupFreshRun(s[1..], seen + {s[0]});
    }
  }

  lemma DedupStepFresh<T(!new)>(x: T, s: seq<T>, seen: set<T>)
    requires x !in seen
    ensures DedupAfter([x] + s, seen) == [x] + DedupAfter(s, seen + {x})
  {
    assert ([x] + s)[1..] == s;
  }

  lemma DedupStepSeen<T(!new)>(x: T, s: seq<T>, seen: set<T>)
    requires x in seen
    ensures DedupAfter([x] + s, seen) == DedupAfter(s, seen)
  {
    assert ([x] + s)[1..] == s;
  }

  lemma ShippedCategoryColumn()
    ensures CategoryColumn(Phrases) == ["Greetings", "Greetings", "Basic Needs", "Food & Drink", "Directions"]
  {
    assert Phrases[1..][1..][1..][1..][1..] == [];
  }

  /** Every id in the shipped table occurs once. */
  lemma ShippedIdsDistinct()
    ensures forall i, j :: 0 <= i < j < |Phrases| ==> Phrases[i].id != Phrases[j].id
  {
  }

  /** Every shipped phrase has a translation for every registered language. */
  lemma ShippedTranslationsComplete()
    ensures forall p, l :: p in Phrases && l in Languages ==> l.code in p.translations
  {
    RegistryCodes();
    forall i | 0 <= i < |Phrases| ensures Phrases[i].translations.Keys == {"es", "fr", "de", "it", "ja"} {
    }
    forall p, l | p in Phrases && l in Languages ensures l.code in p.translations {
      assert l.code in set l' | l' in Languages :: l'.code;
    }
  }

  /** The registry's language codes. */
  lemma RegistryCodes()
    ensures (set l | l in Languages :: l.code) == {"es", "fr", "de", "it", "ja"}
  {
  }
}
