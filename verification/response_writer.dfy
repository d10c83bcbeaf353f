/** `ResponseWriter` of options/response_writer.go: where a response body
    goes, as a writer type, a file path and the writer once initialised. */
module ResponseSink {
  import opened Wrappers
  import opened WriteCloserBuffers

  const WriteToBuffer: string := "buffer"
  const WriteToFile: string := "file"

  /** The `io.WriteCloser` behind the configuration: none yet, a created
      file (its handle), or an in-memory buffer. */
  datatype Writer = NoWriter | FileWriter(file: Handle) | BufferWriter(buffer: WriteCloserBuffer)

  datatype ResponseWriter = ResponseWriter(Type: string, FilePath: string, writer: Writer)

  /** `ResponseWriter{Type: WriteToBuffer}`. */
  const BufferOutput: ResponseWriter := ResponseWriter(WriteToBuffer, "", NoWriter)
}
