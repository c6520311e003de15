/** The message shape both ends of the chat exchange: `{ role, content }`. */
module Wire {

  datatype ChatMessage = ChatMessage(role: string, content: string)
}
