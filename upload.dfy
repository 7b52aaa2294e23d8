/**
 * The upload screen (`screens/Upload.tsx`): a drop zone or file picker selects one
 * file, a simulated 2.5-second processing step marks the upload complete, and the
 * completed panel hands a fixed analysis context, named after the file, to the
 * application. The processing timer is modelled as an explicit completion step.
 */
module Upload {
  import opened Types

  /** The parts of a browser `File` the screen uses. */
  datatype FileInfo = FileInfo(name: string, size: nat)

  /** The three panels the screen can show. */
  datatype Panel =
    | DropZone(highlighted: bool)
    | FileCard(name: string, processing: bool)
    | CompletedPanel

  const FallbackRegionName: string := "Imagen Procesada"
  const ResultImage: string :=
    "https://images.unsplash.com/photo-1534274988758-3609f8089063?auto=format&fit=crop&q=80&w=1200"

  /**
   * `handleViewResults`' context, built from the file selected at that moment. The
   * clock reading in the identifier and the locale date are parameters.
   */
  function ResultContext(file: Option<FileInfo>, stamp: string, date: string): (c: AnalysisContext)
    ensures c.source == UploadSource && c.id == "upload-" + stamp && c.date == date
    ensures c.regionName == if file.Some? then file.value.name else FallbackRegionName
    ensures c.metrics.accuracy > 90.0 && c.metrics.confidence == High
  {
    AnalysisContext("upload-" + stamp, UploadSource, ResultImage,
                    if file.Some? then file.value.name else FallbackRegionName,
                    Metrics(91.2, "12.4 km²", High), date)
  }

  class UploadScreen {
    var isDragging: bool
    var file: Option<FileInfo>
    var processing: bool
    var complete: bool

    /** Processing and the completed panel never overlap. */
    ghost predicate Valid()
      reads this
    {
      !(processing && complete)
    }

    constructor ()
      ensures Valid()
      ensures !isDragging && file == None && !processing && !complete
    {
      isDragging, file, processing, complete := false, None, false, false;
    }

    /** The panel on screen. */
    function Shown(): Panel
      reads this
    {
      if complete then CompletedPanel
      else if file.Some? then FileCard(file.value.name, processing)
      else DropZone(isDragging)
    }

    /** `onDragOver` of the drop zone, which exists until the upload completes. */
    method DragOver()
      requires Valid() && !complete
      modifies this`isDragging
      ensures Valid() && isDragging
    {
      isDragging := true;
    }

    /** `onDragLeave` of the drop zone. */
    method DragLeave()
      requires Valid() && !complete
      modifies this`isDragging
      ensures Valid() && !isDragging
    {
      isDragging := false;
    }

    /**
     * `handleDrop`: the highlight goes off; the first dropped file, if any, replaces
     * the selection, and a drop without files keeps it.
     */
    method Drop(files: seq<FileInfo>)
      requires Valid() && !complete
      modifies this`isDragging, this`file
      ensures Valid() && !isDragging
      ensures file == if |files| > 0 then Some(files[0]) else old(file)
    {
      isDragging := false;
      if |files| > 0 {
        file := Some(files[0]);
      }
    }

    /**
     * The "Explorar archivos" picker, shown while no file is selected. Its handler stores
     * `files[0]`, which is `undefined` for an empty selection, so cancelling leaves
     * no file.
     */
    method Browse(files: seq<FileInfo>)
      requires Valid() && !complete && file == None
      modifies this`file
      ensures Valid()
      ensures file == if |files| > 0 then Some(files[0]) else None
    {
      file := if |files| > 0 then Some(files[0]) else None;
    }

    /** "Eliminar", on the file card: clears the selection and nothing else. */
    method RemoveFile()
      requires Valid() && !complete && file.Some?
      modifies this`file
      ensures Valid() && file == None
    {
      file := None;
    }

    /**
     * `processImage`, from the card's button, which is disabled while processing:
     * without a file it does nothing, otherwise processing starts.
     */
    method ProcessImage()
      requires Valid() && !complete && !processing
      modifies this`processing
      ensures Valid()
      ensures processing <==> old(file).Some?
    {
      if file == None {
        return;
      }
      processing := true;
    }

    /** The processing timer firing. */
    method ProcessingComplete()
      requires Valid() && processing
      modifies this`processing, this`complete
      ensures Valid() && !processing && complete
      ensures Shown() == CompletedPanel
    {
      processing := false;
      complete := true;
    }

    /** "Subir otra", on the completed panel: back to an empty drop zone. */
    method UploadAnother()
      requires Valid() && complete
      modifies this`complete, this`file
      ensures Valid() && !complete && file == None
      ensures Shown() == DropZone(isDragging)
    {
      complete := false;
      file := None;
    }

    /** "Ver Resultados", on the completed panel. */
    method ViewResults(stamp: string, date: string) returns (c: AnalysisContext)
      requires Valid() && complete
      ensures c == ResultContext(file, stamp, date)
    {
      c := ResultContext(file, stamp, date);
    }
  }

  /**
   * Dropping a file, processing it and viewing the results yields a context named
   * after the dropped file, and selecting another upload empties the screen again.
   */
  method DropProcessView(f: FileInfo, stamp: string, date: string)
    returns (c: AnalysisContext, after: Panel)
    ensures c.regionName == f.name && c.source == UploadSource
    ensures c.metrics.accuracy == 91.2
    ensures after == DropZone(false)
  {
    var screen := new UploadScreen();
    screen.DragOver();
    screen.Drop([f]);
    screen.ProcessImage();
    screen.ProcessingComplete();
    c := screen.ViewResults(stamp, date);
    screen.UploadAnother();
    after := screen.Shown();
  }

  /**
   * "Eliminar" stays available while processing runs, so the upload can complete with
   * no file selected; the results are then named "Imagen Procesada".
   */
  method RemoveWhileProcessing(f: FileInfo, stamp: string, date: string) returns (c: AnalysisContext)
    ensures c.regionName == FallbackRegionName
  {
    var screen := new UploadScreen();
    screen.Browse([f]);
    screen.ProcessImage();
    screen.RemoveFile();
    screen.ProcessingComplete();
    c := screen.ViewResults(stamp, date);
  }
}
