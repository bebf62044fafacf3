/** The process settings the core reads. They are loaded once and never change,
    so every operation takes them as an immutable record argument. */
module Config {

  datatype Settings = Settings(
    deepseekApiKey: string,
    deepseekBaseUrl: string,
    deepseekModel: string,
    elevenlabsApiKey: string,
    ttsProvider: string)
}
