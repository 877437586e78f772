/** The commands the controller sends to a monitor (controller/ipc.h), each with its argument. */
module Ipc {
  datatype Command =
    | LoudnessLogStart(arg: string)
    | LoudnessLogEnd
    | AvStreamStart(arg: string)
    | AvStreamEnd
    | AudioRecordStart(arg: string)
    | AudioRecordEnd
    | AvRecordStart(arg: string)
    | AvRecordEnd
    | AnalyzerReset
    | ProgramEnd
}
