/** The configuration constants of the application (constants.ts). */
module Constants {

  /** At most this many scenes are generated for one submission. */
  const MaxScenesPerGeneration: nat := 10

  /** The style suffix appended to every scene prompt before it is sent
      to the image generator. */
  const ImagePromptSuffix: string := "Epic cinematic still, detailed, vibrant colors, anime movie style."
}
