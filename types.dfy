/** The record types shared by the front end. */
module Types {
  /** A style the user can pick: id, display name, description, the prompt
      sent to the image model, and an icon. */
  datatype Mode = Mode(id: string, name: string, description: string, promptTemplate: string, icon: string)

  /** `new Date()` is taken as an opaque instant, in milliseconds since the epoch. */
  type Timestamp = nat

  /** One entry of the generation history. */
  datatype GeneratedImage = GeneratedImage(url: string, prompt: string, mode: string, timestamp: Timestamp)

  /** The browser `File` the user uploaded: its name and its MIME type. */
  datatype File = File(name: string, mimeType: string)
}
