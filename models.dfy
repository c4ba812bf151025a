/**
 * The model identifiers the override strategy compares against. Their actual string values
 * live in `config/models.js`, which is not part of this model, so they are a parameter.
 */
module Models {

  /**
   * `auto` is DEFAULT_GEMINI_MODEL_AUTO (let routing decide), `preview` is PREVIEW_GEMINI_MODEL
   * and `preview31` is PREVIEW_GEMINI_3_1_MODEL, the newer generation it can be resolved to.
   */
  datatype ModelIds = ModelIds(auto: string, preview: string, preview31: string)

  /**
   * The two distinctions the routing rules rely on: the preview model is not the auto
   * sentinel (else it would never be forced), and it differs from the model it resolves to.
   * Whether the 3.1 model may equal the auto sentinel is left open.
   */
  predicate Distinguishable(ids: ModelIds) {
    ids.auto != ids.preview && ids.preview != ids.preview31
  }
}
