/**
 * The fixed topic table: the label shown for a topic (and sent as request
 * context) and the emoji of its chip. Both lookups fall back when the key is
 * absent.
 */
module Topics {
  import opened JsText

  // Topic keys
  // "ml-models"
  const ML_MODELS: JsString := [109, 108, 45, 109, 111, 100, 101, 108, 115]
  // "mlops"
  const MLOPS: JsString := [109, 108, 111, 112, 115]
  // "nlp"
  const NLP: JsString := [110, 108, 112]
  // "cv"
  const CV: JsString := [99, 118]
  // "data"
  const DATA: JsString := [100, 97, 116, 97]
  // "cloud"
  const CLOUD: JsString := [99, 108, 111, 117, 100]
  // "interviews"
  const INTERVIEWS: JsString := [105, 110, 116, 101, 114, 118, 105, 101, 119, 115]

  // Labels
  // "ML Models & Architectures"
  const ML_MODELS_LABEL: JsString := [77, 76, 32, 77, 111, 100, 101, 108, 115, 32, 38, 32, 65, 114, 99, 104, 105, 116, 101, 99, 116, 117, 114, 101, 115]
  // "MLOps & Production Systems"
  const MLOPS_LABEL: JsString := [77, 76, 79, 112, 115, 32, 38, 32, 80, 114, 111, 100, 117, 99, 116, 105, 111, 110, 32, 83, 121, 115, 116, 101, 109, 115]
  // "NLP & Language Models"
  const NLP_LABEL: JsString := [78, 76, 80, 32, 38, 32, 76, 97, 110, 103, 117, 97, 103, 101, 32, 77, 111, 100, 101, 108, 115]
  // "Computer Vision"
  const CV_LABEL: JsString := [67, 111, 109, 112, 117, 116, 101, 114, 32, 86, 105, 115, 105, 111, 110]
  // "Data Engineering"
  const DATA_LABEL: JsString := [68, 97, 116, 97, 32, 69, 110, 103, 105, 110, 101, 101, 114, 105, 110, 103]
  // "Cloud AI Platforms"
  const CLOUD_LABEL: JsString := [67, 108, 111, 117, 100, 32, 65, 73, 32, 80, 108, 97, 116, 102, 111, 114, 109, 115]
  // "FAANG ML Interviews"
  const INTERVIEWS_LABEL: JsString := [70, 65, 65, 78, 71, 32, 77, 76, 32, 73, 110, 116, 101, 114, 118, 105, 101, 119, 115]

  // Chip emoji (a surrogate pair for the characters above U+FFFF, U+FE0F the emoji presentation selector)
  // "🧠" (U+1F9E0)
  const ML_MODELS_EMOJI: JsString := [0xD83E, 0xDDE0]
  // "⚙️" (U+2699 U+FE0F)
  const MLOPS_EMOJI: JsString := [0x2699, 0xFE0F]
  // "💬" (U+1F4AC)
  const NLP_EMOJI: JsString := [0xD83D, 0xDCAC]
  // "👁️" (U+1F441 U+FE0F)
  const CV_EMOJI: JsString := [0xD83D, 0xDC41, 0xFE0F]
  // "📊" (U+1F4CA)
  const DATA_EMOJI: JsString := [0xD83D, 0xDCCA]
  // "☁️" (U+2601 U+FE0F)
  const CLOUD_EMOJI: JsString := [0x2601, 0xFE0F]
  // "🎯" (U+1F3AF)
  const INTERVIEWS_EMOJI: JsString := [0xD83C, 0xDFAF]
  // "🤖" (U+1F916)
  const FALLBACK_EMOJI: JsString := [0xD83E, 0xDD16]

  /** The topic the state starts with, and the one that adds no request context. */
  const DEFAULT_TOPIC: JsString := ML_MODELS

  const TOPIC_LABELS: map<JsString, JsString> := map[
    ML_MODELS := ML_MODELS_LABEL,
    MLOPS := MLOPS_LABEL,
    NLP := NLP_LABEL,
    CV := CV_LABEL,
    DATA := DATA_LABEL,
    CLOUD := CLOUD_LABEL,
    INTERVIEWS := INTERVIEWS_LABEL
  ]

  const TOPIC_EMOJIS: map<JsString, JsString> := map[
    ML_MODELS := ML_MODELS_EMOJI,
    MLOPS := MLOPS_EMOJI,
    NLP := NLP_EMOJI,
    CV := CV_EMOJI,
    DATA := DATA_EMOJI,
    CLOUD := CLOUD_EMOJI,
    INTERVIEWS := INTERVIEWS_EMOJI
  ]

  /** `TOPIC_LABELS[topic] || topic`: the table's label for a known topic,
    * the topic itself otherwise; never empty for a non-empty topic. */
  function TopicLabel(topic: JsString): (name: JsString)
    ensures topic in TOPIC_LABELS ==> name == TOPIC_LABELS[topic]
    ensures topic !in TOPIC_LABELS ==> name == topic
    ensures topic != [] ==> name != []
  {
    if topic in TOPIC_LABELS && TOPIC_LABELS[topic] != [] then TOPIC_LABELS[topic] else topic
  }

  /** `getTopicEmoji(topic)`: the chip's emoji, or the robot for any other topic. */
  function TopicEmoji(topic: JsString): (emoji: JsString)
    ensures topic in TOPIC_EMOJIS ==> emoji == TOPIC_EMOJIS[topic]
    ensures topic !in TOPIC_EMOJIS ==> emoji == FALLBACK_EMOJI
    ensures emoji != []
  {
    if topic in TOPIC_EMOJIS && TOPIC_EMOJIS[topic] != [] then TOPIC_EMOJIS[topic] else FALLBACK_EMOJI
  }

  /** Every chip topic has a label of its own, distinct from its key, and the
    * default topic's label is the one the initial state carries. */
  lemma KnownTopics()
    ensures TopicLabel(DEFAULT_TOPIC) == ML_MODELS_LABEL
    ensures forall t :: t in TOPIC_LABELS ==> TopicLabel(t) != t && t in TOPIC_EMOJIS
  {
  }
}
