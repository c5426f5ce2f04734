/** The host platform's speech synthesis, reduced to what the phrasebook observes of it:
    the available voices and the queue of utterances waiting to be spoken. */
module Speech {
  import opened Options

  /** A synthesis voice and its language tag (such as "es-MX"). */
  datatype Voice = Voice(name: string, lang: string)

  /** A request to speak `text`. `lang` is the locale hint ("" leaves it to the platform),
      `voice` an explicitly chosen voice, `rate` the speaking speed (1.0 is normal). */
  datatype Utterance = Utterance(text: string, lang: string, voice: Option<Voice>, rate: real)

  /** The language hint a fresh utterance carries until one is assigned. */
  const DefaultLang := ""

  /** The speaking rate a fresh utterance carries until one is assigned. */
  const DefaultRate: real := 1.0

  /** The shared synthesis engine. `available` says whether the browser has one at all;
      calling `speak` or `cancel` without it throws. `speak` appends to the queue and `cancel`
      empties it; the head of the queue is the utterance being spoken. */
  class SpeechEngine {
    const available: bool
    var pending: seq<Utterance>

    constructor (available: bool)
      ensures this.available == available && pending == []
    {
      this.available := available;
      pending := [];
    }

    /** The utterance being spoken, if any. */
    function Current(): (u: Option<Utterance>)
      reads this
      ensures u.Some? <==> pending != []
      ensures u.Some? ==> u.value == pending[0]
    {
      if pending == [] then None else Some(pending[0])
    }

    /** `speechSynthesis.cancel()`: drops the current utterance and everything queued. */
    method Cancel()
      requires available
      modifies this
      ensures pending == []
    {
      pending := [];
    }

    /** `speechSynthesis.speak(u)`: queues `u` behind what is already pending. */
    method Speak(u: Utterance)
      requires available
      modifies this
      ensures pending == old(pending) + [u]
    {
      pending := pending + [u];
    }
  }
}
