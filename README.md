# Design patterns in Go, modelled in Dafny

This project models the Go examples of a design-patterns course: the SOLID principles, the creational patterns and the structural patterns. The largest part is the vector-to-raster adapter. It turns axis-aligned integer line segments into grid points, optionally through a memo table keyed by the line. It then draws the points as a grid of `'*'` and `' '`. The rest of the model covers:

- the specification filters;
- a relationship store;
- rectangles and squares;
- a numbered journal;
- four builders;
- a tree printer and a neuron connector;
- a console facade;
- a dragon made of a bird and a lizard;
- a population sum over a lazily filled database;
- deep copies;
- the factories.

Each Go file has its own module in a `.dfy` file of the same name. The only exceptions are `Decimal`, which gives Go's `%d` formatting, the role-based factory of the factory package, which is in `factoryprototype.dfy`, and `singletonanddependencyinversion.go`, which is in `singleton.dfy`.

Modelling conventions:

- **State.** Go state that is updated in place becomes a class with `modifies` clauses.
  - Package-level variables become objects that the caller passes in: `EntryCounter` for the journal numbering, `PointCache` for the point cache, and `Prototypes` for the office prototypes.
- **Loops.** Loops become methods with invariants. Each is proved against a recursive specification function (`Rasterize`, `Picture`, `Selected`, `ChildrenOf`, `Apply`, `ApplyAll`, `Total`, `OutAdded`/`InAdded`).
- **Interfaces.** A Go interface becomes a datatype over its implementations:
  - `Lsp.Sized` for the rectangle and the square;
  - `NeuralNetworks.NeuronInterface` for a neuron and a layer;
  - `InterfaceFactory.Human` for a person and a tired person;
  - `Ocp.Specification` for the specifications.
- **Panics.** Where the Go code panics (a negative index, `make` with a negative length, an unsupported role), the model has a precondition.

Where the intent of the design and the code disagree, the model follows the code:

- A diagonal line adds no points and raises no error (`Adapter.DiagonalAndDegenerateLines`, `Adapter.EmptyIffDiagonal`).
- Drawing no points gives `" \n"`, a one-cell grid (`Adapter.SmallPictures`).
- The cached conversion does not give the same points twice. On a miss it stores the whole buffer accumulated so far, so a later hit replays the points of earlier lines (see Findings). It does write nothing on a second run (`AdapterCaching.SecondRunWritesNothing`).
- Cache entries are reused on a hit without any consistency check; an entry, once written, is never overwritten (`AdapterCaching.StepWritesOnlyItsLine`, `AdapterCaching.RunCachedKeepsEntries`).

## Model

| member | source | states |
|---|---|---|
| Adapter.NewRectangle | 2-patterns/structural/adapter/adapter.go:29-40 | a rectangle has four lines, each horizontal or vertical |
| Adapter.MinMax | 2-patterns/structural/adapter/adapter.go:131-136 | the pair is ordered and is (a, b) or (b, a) |
| Adapter.LinePoints | 2-patterns/structural/adapter/adapter.go:112-126 | the points `addLine` appends for one segment: every one lies on the segment, sharing its constant coordinate and within its two ends |
| Adapter.VerticalLinePoints | 2-patterns/structural/adapter/adapter.go:113-121 | a vertical line gives abs(y2-y1)+1 points, all at x1, y rising from the smaller to the larger end |
| Adapter.HorizontalLinePoints | 2-patterns/structural/adapter/adapter.go:122-125 | a horizontal, non-degenerate line gives abs(x2-x1)+1 points at y1, x rising from the smaller to the larger end |
| Adapter.DiagonalAndDegenerateLines | 2-patterns/structural/adapter/adapter.go:118-126 | a diagonal line gives no point; a one-point line gives exactly that point |
| Adapter.EmptyIffDiagonal | 2-patterns/structural/adapter/adapter.go:118-126 | a line gives no points exactly when it is diagonal |
| Adapter.SwapInvariance | 2-patterns/structural/adapter/adapter.go:113-114 | swapping the endpoints gives the same point sequence |
| Adapter.RasterizeCount | 2-patterns/structural/adapter/adapter.go:103-110 | the conversion's length is the sum of the lines' point counts |
| Adapter.RectanglePointCount | 2-patterns/structural/adapter/adapter.go:29-40 | a w-by-h rectangle gives 2(abs(w-1)+1) + 2(abs(h-1)+1) points, corners counted twice |
| Adapter.SixByFourRectangleHasTwentyPoints | 2-patterns/structural/adapter/adapter.go:29-40 | the 6-by-4 rectangle gives 20 points |
| Adapter.RasterAdapter.constructor | 2-patterns/structural/adapter/adapter.go:104 | a new adapter has no points |
| Adapter.RasterAdapter.GetPoints | 2-patterns/structural/adapter/adapter.go:138-140 | returns the accumulated points |
| Adapter.RasterAdapter.AddLine | 2-patterns/structural/adapter/adapter.go:112-129 | appends exactly the line's points; the earlier points stay as an unchanged prefix |
| Adapter.VectorToRaster | 2-patterns/structural/adapter/adapter.go:103-110 | a new adapter holding the concatenation of every line's points, in line order |
| Adapter.MaxX | 2-patterns/structural/adapter/adapter.go:57-66 | the largest x, or 0: an upper bound of every x, reached by some point unless it is 0 |
| Adapter.MaxY | 2-patterns/structural/adapter/adapter.go:57-66 | the same for y |
| Adapter.RowsAt | 2-patterns/structural/adapter/adapter.go:83-89 | the serialised grid has height rows of width+1 characters; each character is the cell's mark or the row's newline |
| Adapter.RowsLength | 2-patterns/structural/adapter/adapter.go:83-89 | the serialised grid has height*(width+1) characters |
| Adapter.PictureCells | 2-patterns/structural/adapter/adapter.go:56-89 | the drawing has maxY+1 rows of maxX+1 cells plus a newline; a cell is '*' exactly when a point sits there |
| Adapter.SmallPictures | 2-patterns/structural/adapter/adapter.go:56-89 | no points draw " \n"; the point (0,0) draws "*\n" |
| Adapter.DrawPoints | 2-patterns/structural/adapter/adapter.go:56-90 | for points with non-negative coordinates, returns the drawing |
| Adapter.Extent | 2-patterns/structural/adapter/adapter.go:57-66 | the scan's maxima are MaxX and MaxY |
| Adapter.MarkPoints | 2-patterns/structural/adapter/adapter.go:79-81 | on a blank grid, every cell becomes '*' exactly when a point sits there |
| Adapter.Serialize | 2-patterns/structural/adapter/adapter.go:83-89 | the rows of the grid, each followed by a newline |
| AdapterCaching.PointCache.constructor | 2-patterns/structural/adapter/adaptercaching.go:11 | the cache starts empty |
| AdapterCaching.AddLineCached | 2-patterns/structural/adapter/adaptercaching.go:13-45 | a hit appends the stored points and writes nothing; a miss appends the line's points and stores the whole buffer under the line |
| AdapterCaching.VectorToRasterCached | 2-patterns/structural/adapter/adaptercaching.go:47-54 | the points and the table are those of running the cached step over the lines, in order |
| AdapterCaching.StepWritesOnlyItsLine | 2-patterns/structural/adapter/adaptercaching.go:43 | one call adds at most its line as a key, and every other entry keeps its value |
| AdapterCaching.RunCachedKeys | 2-patterns/structural/adapter/adaptercaching.go:47-54 | after a conversion, the keys are the old keys plus the image's lines |
| AdapterCaching.EveryLineCached | 2-patterns/structural/adapter/adaptercaching.go:47-54 | after a conversion, every line of the image is a key |
| AdapterCaching.RunCachedKeepsEntries | 2-patterns/structural/adapter/adaptercaching.go:21-26 | entries present before a conversion are kept unchanged |
| AdapterCaching.AllHitsWriteNothing | 2-patterns/structural/adapter/adaptercaching.go:21-26 | when every line hits, the table is unchanged |
| AdapterCaching.SecondRunWritesNothing | 2-patterns/structural/adapter/adaptercaching.go:56-59 | converting the same image again leaves the table as the first run left it |
| AdapterCaching.AllMissesMatchRasterize | 2-patterns/structural/adapter/adaptercaching.go:28-41 | when every line misses and no line repeats, the points are the uncached conversion's |
| AdapterCaching.HitReplaysEarlierLines | 2-patterns/structural/adapter/adaptercaching.go:43 | after caching two one-point lines, a hit on the second gives both points where the line has one |
| AdapterCaching.PerLineCacheMatchesRasterize | 2-patterns/structural/adapter/adaptercaching.go:43 | with per-line entries, a conversion from a consistent table gives the uncached points and leaves the table consistent |
| AdapterCaching.AddLineCachedPerLine | 2-patterns/structural/adapter/adaptercaching.go:13-45 | the per-line step: a miss stores only the line's points |
| AdapterCaching.VectorToRasterCachedPerLine | 2-patterns/structural/adapter/adaptercaching.go:47-54 | from a consistent cache, the per-line conversion equals the uncached one and keeps the cache consistent |
| Decimal.NatToString | 1-solid/srp.go:24 | the decimal digits of n: at least one digit, and a leading '0' only for 0 |
| Decimal.IntToString | 1-solid/srp.go:24 | "%d": begins with '-' exactly for a negative number |
| Decimal.ParseNatToString | 1-solid/srp.go:24 | reading the digits back gives n |
| Decimal.NatToStringInjective | 1-solid/srp.go:24 | distinct numbers have distinct texts |
| Srp.EntryCounter.constructor | 1-solid/srp.go:12 | the entry count starts at 0 |
| Srp.EntryInjective | 1-solid/srp.go:24 | an entry's text determines its number and its text |
| Srp.JoinSnoc | 1-solid/srp.go:18-20 | joining one more part adds the separator and the part, or gives the part alone |
| Srp.JoinNewlines | 1-solid/srp.go:18-20 | entries without newlines join into a text with one newline fewer than entries, and none when there are none |
| Srp.Journal.constructor | 1-solid/srp.go:14-16 | a journal starts with no entries |
| Srp.Journal.String | 1-solid/srp.go:18-20 | an empty journal gives "", a single entry gives itself with no trailing newline |
| Srp.Journal.AddEntry | 1-solid/srp.go:22-28 | the count rises by one and is returned; exactly one entry "count: text" is appended; the text grows by a newline and the entry |
| Srp.Journal.RemoveEntry | 1-solid/srp.go:30-32 | the entries are unchanged |
| Srp.NumberingIsGlobal | 1-solid/srp.go:12-28 | two journals sharing the counter number their entries 1, 2, 3 across both |
| Ocp.IsSatisfied | 1-solid/ocp.go:88-108 | the three `IsSatisfied` methods: a product satisfies a specification exactly when it has every colour and every size the specification names, however the and-specifications nest |
| Ocp.SelectedCharacterization | 1-solid/ocp.go:113-122 | the selection is increasing positions, holds exactly the positions that satisfy the specification, and is no longer than the input |
| Ocp.IncreasingUnique | 1-solid/ocp.go:113-122 | two increasing sequences with the same members are equal |
| Ocp.FilterByColor | 1-solid/ocp.go:35-45 | exactly the products of that colour, in input order |
| Ocp.FilterBySize | 1-solid/ocp.go:48-58 | exactly the products of that size, in input order |
| Ocp.FilterBySizeAndColor | 1-solid/ocp.go:63-73 | exactly the products of that size and colour, in input order |
| Ocp.Filter | 1-solid/ocp.go:113-122 | the positions of the products that satisfy the specification, in order |
| Ocp.AndSelectsBoth | 1-solid/ocp.go:106-108 | a product passes an and-specification exactly when it passes both parts |
| Ocp.ColorFilterAgrees | 1-solid/ocp.go:88-90 | the colour filter's result is the better filter's with a colour specification |
| Ocp.SizeFilterAgrees | 1-solid/ocp.go:96-98 | the size filter's result is the better filter's with a size specification |
| Ocp.SizeAndColorFilterAgrees | 1-solid/ocp.go:106-108 | the size-and-colour filter's result is the better filter's with the and-specification |
| Ocp.DemoSelections | 1-solid/ocp.go:124-166 | green gives apple and tree, large gives tree and house, large and green gives the tree |
| Dip.ChildrenOfAppend | 1-solid/dip.go:37-47 | the children found in two stores one after the other are those of the first, then the second |
| Dip.ChildrenOfMembers | 1-solid/dip.go:37-47 | a person is found exactly when some relation is a Parent relation from the name to that person; no more results than relations |
| Dip.Relationships.AddParentAndChild | 1-solid/dip.go:49-52 | appends exactly (parent, Parent, child) and (child, Child, parent) |
| Dip.Relationships.FindAllChildrenOf | 1-solid/dip.go:37-47 | the children found in the store, in store order; the store is not changed |
| Dip.AddedChildIsFound | 1-solid/dip.go:49-52 | after adding, the parent's children are the old ones followed by the child |
| Dip.AddingKeepsChildren | 1-solid/dip.go:50-51 | adding never loses a child found before, for any name |
| Lsp.Rectangle.GetWidth | 1-solid/lsp.go:22-24 | the rectangle's width |
| Lsp.Rectangle.GetHeight | 1-solid/lsp.go:30-32 | the rectangle's height |
| Lsp.Rectangle.SetWidth | 1-solid/lsp.go:26-28 | only the width changes |
| Lsp.Rectangle.SetHeight | 1-solid/lsp.go:34-36 | only the height changes |
| Lsp.Square.constructor | 1-solid/lsp.go:45-51 | width and height are both the size |
| Lsp.Square.GetWidth | 1-solid/lsp.go:53-55 | the square's width |
| Lsp.Square.GetHeight | 1-solid/lsp.go:63-65 | the square's height |
| Lsp.Square.SetWidth | 1-solid/lsp.go:58-61 | width and height both become the value, so the square stays a square |
| Lsp.Square.SetHeight | 1-solid/lsp.go:68-71 | likewise for the height |
| Lsp.UseIt | 1-solid/lsp.go:74-83 | expected area is 10 times the old width; a rectangle's actual area equals it, a square's is 100, equal exactly when the old side was 10; afterwards a rectangle keeps its width and has height 10, and a square has both sides 10 |
| Lsp.Square2Rectangle | 1-solid/lsp.go:94-99 | a new rectangle with width and height the side |
| Lsp.LspDemo | 1-solid/lsp.go:101-110 | the three shapes give (20, 20), (50, 100) and (50, 50) |
| Builder.HtmlElement.String | 2-patterns/creational/builder/builder.go:25-27 | the rendering at indent 0, which opens with the element's own unindented tag line |
| Builder.Render | 2-patterns/creational/builder/builder.go:29-45 | the rendering at indent k: open tag, text line if the text is non-empty, children at k+1, close tag; it is never empty and ends with a newline |
| Builder.RenderAll | 2-patterns/creational/builder/builder.go:40-42 | the children rendered in order one level deeper: empty exactly when there are no children, otherwise ending with a newline |
| Builder.HtmlBuilder.String | 2-patterns/creational/builder/builder.go:63-65 | the root element's rendering, opening with the root's tag line |
| Builder.Spaces | 2-patterns/creational/builder/builder.go:31 | n characters, every one a space |
| Builder.RenderFrame | 2-patterns/creational/builder/builder.go:29-45 | the rendering starts with the indented open tag and ends with the indented close tag |
| Builder.TextCount | 2-patterns/creational/builder/builder.go:34-38 | the text line is emitted exactly when the text is non-empty |
| Builder.RenderNewlines | 2-patterns/creational/builder/builder.go:29-45 | with newline-free names and texts, the rendering has one line per tag and per non-empty text |
| Builder.RenderAllNewlines | 2-patterns/creational/builder/builder.go:40-42 | the same for the children, rendered in order |
| Builder.LeafRender | 2-patterns/creational/builder/builder.go:29-45 | a childless element renders as its open tag, its text line and its close tag |
| Builder.ListRendering | 2-patterns/creational/builder/builder.go:25-45 | the list of hello and world renders as its six lines between ul tags |
| Builder.HtmlBuilder.constructor | 2-patterns/creational/builder/builder.go:52-61 | the root has the given name, empty text and no children |
| Builder.HtmlBuilder.AddChild | 2-patterns/creational/builder/builder.go:67-70 | appends one childless element and keeps the earlier children |
| Builder.HtmlBuilder.AddChildFluent | 2-patterns/creational/builder/builder.go:73-78 | the same effect, returning the receiver |
| Builder.ListDemo | 2-patterns/creational/builder/builder.go:105-113 | plain and fluent calls print the same list |
| BuilderFacets.Person.constructor | 2-patterns/creational/builder/builderfacets.go:30-34 | every field empty or zero |
| BuilderFacets.PersonBuilder.constructor | 2-patterns/creational/builder/builderfacets.go:30-34 | a builder of a new, empty person |
| BuilderFacets.PersonBuilder.Lives | 2-patterns/creational/builder/builderfacets.go:20-23 | an address facet on the same person |
| BuilderFacets.PersonBuilder.Works | 2-patterns/creational/builder/builderfacets.go:25-28 | a job facet on the same person |
| BuilderFacets.PersonBuilder.Build | 2-patterns/creational/builder/builderfacets.go:78-80 | the shared person |
| BuilderFacets.PersonAddressBuilder.AtStreet | 2-patterns/creational/builder/builderfacets.go:42-45 | writes only the street and returns the facet |
| BuilderFacets.PersonAddressBuilder.InCity | 2-patterns/creational/builder/builderfacets.go:47-50 | writes only the city and returns the facet |
| BuilderFacets.PersonAddressBuilder.WithPostalCode | 2-patterns/creational/builder/builderfacets.go:52-55 | writes only the postcode and returns the facet |
| BuilderFacets.PersonJobBuilder.AtCompany | 2-patterns/creational/builder/builderfacets.go:63-66 | writes only the company and returns the facet |
| BuilderFacets.PersonJobBuilder.AsA | 2-patterns/creational/builder/builderfacets.go:68-71 | writes only the position and returns the facet |
| BuilderFacets.PersonJobBuilder.Earning | 2-patterns/creational/builder/builderfacets.go:73-76 | writes only the income and returns the facet |
| BuilderFacets.FacetsDemo | 2-patterns/creational/builder/builderfacets.go:82-87 | writes through both facets all show in the built person |
| BuilderParameter.EmailBuilder.From | 2-patterns/creational/builder/builderparameter.go:16-22 | sets the sender, with or without '@', and nothing else |
| BuilderParameter.EmailBuilder.To | 2-patterns/creational/builder/builderparameter.go:24-30 | sets the recipient, with or without '@', and nothing else |
| BuilderParameter.EmailBuilder.WithSubject | 2-patterns/creational/builder/builderparameter.go:32-35 | sets only the subject and returns the receiver |
| BuilderParameter.EmailBuilder.WithBody | 2-patterns/creational/builder/builderparameter.go:37-40 | sets only the body and returns the receiver |
| BuilderParameter.ApplyAppend | 2-patterns/creational/builder/builderparameter.go:55-65 | two actions in a row act as their concatenation |
| BuilderParameter.UnwrittenSubjectKept | 2-patterns/creational/builder/builderparameter.go:32-35 | an action with no subject step leaves the subject as it was |
| BuilderParameter.Run | 2-patterns/creational/builder/builderparameter.go:61 | the builder's email is the action applied to its old email |
| BuilderParameter.SendEmail | 2-patterns/creational/builder/builderparameter.go:55-65 | the email sent is the action applied once to a blank email |
| BuilderParameter.SendDemo | 2-patterns/creational/builder/builderparameter.go:68-84 | the demonstration fills all four fields |
| FunctionalBuilder.SetName | 2-patterns/creational/builder/functionalbuilder.go:16-18 | the action `Called` records: it sets the name and keeps the position |
| FunctionalBuilder.SetPosition | 2-patterns/creational/builder/functionalbuilder.go:23-25 | the action `WorksAsA` records: it sets the position and keeps the name |
| FunctionalBuilder.PersonFBuilder.Called | 2-patterns/creational/builder/functionalbuilder.go:15-20 | appends exactly one name action and returns the receiver |
| FunctionalBuilder.PersonFBuilder.WorksAsA | 2-patterns/creational/builder/functionalbuilder.go:22-27 | appends exactly one position action and returns the receiver |
| FunctionalBuilder.PersonFBuilder.Build | 2-patterns/creational/builder/functionalbuilder.go:29-35 | the actions applied in order to an empty person, without consuming them |
| FunctionalBuilder.LastNameWins | 2-patterns/creational/builder/functionalbuilder.go:16-18 | the last recorded name is the built name |
| FunctionalBuilder.ChangesAreIndependent | 2-patterns/creational/builder/functionalbuilder.go:15-27 | a position action keeps the name and a name action keeps the position |
| FunctionalBuilder.ApplyAllAppend | 2-patterns/creational/builder/functionalbuilder.go:29-35 | two lists of actions in a row act as their concatenation |
| FunctionalBuilder.FunctionalDemo | 2-patterns/creational/builder/functionalbuilder.go:41 | the chain builds Dmitri the Developer |
| GeometricShapes.GraphicObject.String | 2-patterns/structural/composite/geometricshapes.go:25-29 | the printout from depth 0, whose first line is the root's label with no stars |
| GeometricShapes.Print | 2-patterns/structural/composite/geometricshapes.go:31-44 | an object's line at depth d (d stars, colour and space when coloured, name) followed by its children at d+1; never empty and ending with a newline |
| GeometricShapes.PrintAll | 2-patterns/structural/composite/geometricshapes.go:41-43 | the children printed in order: empty exactly when there are none, otherwise ending with a newline |
| GeometricShapes.Stars | 2-patterns/structural/composite/geometricshapes.go:32 | n characters, every one a star |
| GeometricShapes.NewCircle | 2-patterns/structural/composite/geometricshapes.go:46-52 | a childless "Circle" of the colour |
| GeometricShapes.NewSquare | 2-patterns/structural/composite/geometricshapes.go:54-60 | a childless "Square" of the colour |
| GeometricShapes.PrintStartsWithOwnLine | 2-patterns/structural/composite/geometricshapes.go:31-38 | the printout starts with depth stars, the label and a newline |
| GeometricShapes.LabelCount | 2-patterns/structural/composite/geometricshapes.go:33-37 | a label of newline-free parts has no newline |
| GeometricShapes.PrintNewlines | 2-patterns/structural/composite/geometricshapes.go:25-44 | with newline-free names and colours, there is one line per object of the tree |
| GeometricShapes.PrintAllNewlines | 2-patterns/structural/composite/geometricshapes.go:41-43 | the same for the children, printed in order one level deeper |
| GeometricShapes.LeafPrint | 2-patterns/structural/composite/geometricshapes.go:31-38 | a coloured childless object prints as stars, colour, space, name and newline |
| GeometricShapes.DrawingPrintout | 2-patterns/structural/composite/geometricshapes.go:62-73 | the demonstration's drawing prints as its six lines, the root without stars |
| NeuralNetworks.Neuron.constructor | 2-patterns/structural/composite/neuralnetworks.go:37 | a neuron with no edges |
| NeuralNetworks.Neuron.Iter | 2-patterns/structural/composite/neuralnetworks.go:13-15 | exactly the neuron itself |
| NeuralNetworks.Neuron.ConnectTo | 2-patterns/structural/composite/neuralnetworks.go:17-20 | appends other to the outputs and this to other's inputs, once each |
| NeuralNetworks.NeuronLayer.constructor | 2-patterns/structural/composite/neuralnetworks.go:35-39 | count new, distinct neurons with no edges |
| NeuralNetworks.NeuronLayer.Iter | 2-patterns/structural/composite/neuralnetworks.go:26-33 | the layer's neurons in index order |
| NeuralNetworks.Iter | 2-patterns/structural/composite/neuralnetworks.go:44-45 | a neuron or a layer gives its members |
| NeuralNetworks.ConnectToEach | 2-patterns/structural/composite/neuralnetworks.go:45-47 | one left neuron gains the right neurons as outputs; each right neuron gains it once per occurrence |
| NeuralNetworks.ConnectNext | 2-patterns/structural/composite/neuralnetworks.go:44-48 | one more left neuron's edges, on top of the earlier ones |
| NeuralNetworks.ConnectEach | 2-patterns/structural/composite/neuralnetworks.go:44-48 | the nested loops add OutAdded and InAdded to every neuron |
| NeuralNetworks.Connect | 2-patterns/structural/composite/neuralnetworks.go:43-49 | every neuron's edge lists grow by exactly the left-major pairs; neurons on neither side are untouched |
| NeuralNetworks.OutAddedOnce | 2-patterns/structural/composite/neuralnetworks.go:43-49 | with distinct left neurons, a left neuron gains all right neurons in order, any other neuron none |
| NeuralNetworks.InAddedOnce | 2-patterns/structural/composite/neuralnetworks.go:43-49 | with distinct right neurons, a right neuron gains all left neurons in order, any other neuron none |
| NeuralNetworks.ConnectClosedForm | 2-patterns/structural/composite/neuralnetworks.go:43-49 | between a neuron or a layer built by the constructor, a left neuron gains exactly the right side as outputs and a right neuron exactly the left side as inputs, in order |
| Facade.Buffer.constructor | 2-patterns/structural/facade/facade.go:21-27 | width*height runes, all zero |
| Facade.Buffer.At | 2-patterns/structural/facade/facade.go:29-31 | the rune at that index of the buffer; an index outside it panics in Go and is excluded by the precondition |
| Facade.Viewport.constructor | 2-patterns/structural/facade/facade.go:40-44 | a view of the buffer at offset 0 |
| Facade.Viewport.GetCharacterAt | 2-patterns/structural/facade/facade.go:46-48 | the buffer's rune at offset plus index, which must be inside it |
| Facade.Console.constructor | 2-patterns/structural/facade/facade.go:58-66 | one new zero-filled 200-by-150 buffer and one viewport on it at offset 0 |
| Facade.Console.GetCharacterAt | 2-patterns/structural/facade/facade.go:68-70 | the first viewport's buffer at its offset plus index |
| Facade.DefaultConsoleReadsItsBuffer | 2-patterns/structural/facade/facade.go:68-70 | on the default console the answer for every cell is the buffer's element, a zero rune |
| Facade.FacadeDemo | 2-patterns/structural/facade/facade.go:72-82 | a new console's character 1 is the zero rune |
| MultipleAggregation.Bird.Age | 2-patterns/structural/decorator/multipleaggregation.go:25 | the bird's age |
| MultipleAggregation.Bird.Fly | 2-patterns/structural/decorator/multipleaggregation.go:28-32 | the bird flies (prints) exactly from age 10 on |
| MultipleAggregation.Bird.SetAge | 2-patterns/structural/decorator/multipleaggregation.go:25-26 | Age then returns the value set |
| MultipleAggregation.Lizard.Age | 2-patterns/structural/decorator/multipleaggregation.go:38 | the lizard's age |
| MultipleAggregation.Lizard.Crawl | 2-patterns/structural/decorator/multipleaggregation.go:41-45 | the lizard crawls (prints) exactly before age 10 |
| MultipleAggregation.Lizard.SetAge | 2-patterns/structural/decorator/multipleaggregation.go:38-39 | Age then returns the value set |
| MultipleAggregation.Dragon.constructor | 2-patterns/structural/decorator/multipleaggregation.go:69-74 | a new bird and lizard, both of age 0 |
| MultipleAggregation.Dragon.Age | 2-patterns/structural/decorator/multipleaggregation.go:55 | the dragon's age is its bird's |
| MultipleAggregation.Dragon.Fly | 2-patterns/structural/decorator/multipleaggregation.go:61-63 | the dragon flies through its bird, so exactly from its own age 10 on |
| MultipleAggregation.Dragon.Crawl | 2-patterns/structural/decorator/multipleaggregation.go:65-67 | the dragon crawls through its lizard; while the two halves agree, exactly when it does not fly |
| MultipleAggregation.Dragon.SetAge | 2-patterns/structural/decorator/multipleaggregation.go:56-59 | both halves get the age, so they stay equal and Age returns it |
| MultipleAggregation.ExactlyOneMove | 2-patterns/structural/decorator/multipleaggregation.go:61-67 | a dragon flies exactly when it does not crawl, and flies exactly from age 10 |
| MultipleAggregation.DragonDemo | 2-patterns/structural/decorator/multipleaggregation.go:76-82 | a dragon of 11 flies and does not crawl |
| Singleton.Lookup | 2-patterns/creational/singleton/singletonanddependencyinversion.go:29 | the population stored under the name, or Go's zero value 0 when the name is missing |
| Singleton.Filled | 2-patterns/creational/singleton/singletonanddependencyinversion.go:22-28 | an empty table becomes the seed (alpha 1, beta 2, gamma 3), a non-empty table is kept, and the result is never empty |
| Singleton.FilledIsStable | 2-patterns/creational/singleton/singletonanddependencyinversion.go:22 | once filled, the table does not change again |
| Singleton.TotalAppend | 2-patterns/creational/singleton/singletonanddependencyinversion.go:9-15 | the total over two lists is the sum of their totals |
| Singleton.UnknownCitiesCountZero | 2-patterns/creational/singleton/singletonanddependencyinversion.go:29 | cities missing from the table add nothing |
| Singleton.DummyDatabase.constructor | 2-patterns/creational/singleton/singletonanddependencyinversion.go:34 | no table yet |
| Singleton.DummyDatabase.GetPopulation | 2-patterns/creational/singleton/singletonanddependencyinversion.go:21-30 | fills the table only when empty, then answers the name's entry or 0 |
| Singleton.GetTotalPopulationEx | 2-patterns/creational/singleton/singletonanddependencyinversion.go:9-15 | the sum of the answers over the cities, 0 for none; the table is filled by the first lookup |
| Singleton.SingletonAndDependencyInversion | 2-patterns/creational/singleton/singletonanddependencyinversion.go:32-36 | alpha and gamma total 4 |
| CopyMethod.Address.DeepCopy | 2-patterns/creational/prototype/copymethod.go:7-13 | a new address with the same three fields |
| CopyMethod.PersonWithFriends.DeepCopy | 2-patterns/creational/prototype/copymethod.go:21-33 | a new person with the same name and a new, equal address, but the original's friends array, whose contents stay |
| CopyMethod.Copy | 2-patterns/creational/prototype/copymethod.go:29 | the first min(len) elements come from the source and the rest stay, also when both are the same array |
| CopyMethod.CopyOntoItselfChangesNothing | 2-patterns/creational/prototype/copymethod.go:29 | copying a slice onto itself copies all of it and changes nothing |
| CopyMethod.Append | 2-patterns/creational/prototype/copymethod.go:41 | appending to a full slice gives a new array with the element after the old ones |
| CopyMethod.CopySharesFriendsOnly | 2-patterns/creational/prototype/copymethod.go:21-33 | a friend written through the copy shows in the original; an address written through the copy does not |
| CopyMethod.CopyMethodDemo | 2-patterns/creational/prototype/copymethod.go:35-45 | John keeps his name, street and two friends; Jane has hers and three friends |
| PrototypeFactory.PFEmployee.DeepCopy | 2-patterns/creational/prototype/prototypefactory.go:18-33 | a new employee with equal fields |
| PrototypeFactory.Prototypes.constructor | 2-patterns/creational/prototype/prototypefactory.go:35-51 | the nameless main and auxiliary office prototypes in suite 0 |
| PrototypeFactory.NewPFEmployee | 2-patterns/creational/prototype/prototypefactory.go:54-60 | a new employee with the name and suite given and the prototype's street and city |
| PrototypeFactory.NewMainOfficePFEmployee | 2-patterns/creational/prototype/prototypefactory.go:63-65 | a new employee at 123 East Dr, London; the prototypes unchanged |
| PrototypeFactory.NewAuxiliaryOfficePFEmployee | 2-patterns/creational/prototype/prototypefactory.go:68-70 | a new employee at 666 West Dr, London; the prototypes unchanged |
| PrototypeFactory.PrototypeFactoryDemo | 2-patterns/creational/prototype/prototypefactory.go:72-79 | John and Jane are distinct objects at their offices and suites |
| FactoryFunction.NewPerson | 2-patterns/creational/factory/factoryfunction.go:23-25 | the name and age given, and two eyes whatever the arguments |
| FactoryFunction.NewPersonInjective | 2-patterns/creational/factory/factoryfunction.go:23-25 | two made people are equal exactly when their names and ages are |
| FactoryFunction.FactoryFunctionDemo | 2-patterns/creational/factory/factoryfunction.go:27-36 | the factory's Jane equals the literal with two eyes |
| InterfaceFactory.NewHuman | 2-patterns/creational/factory/interfacefactory.go:30-35 | a tired person exactly when the age is over 100, name and age stored as given |
| InterfaceFactory.SayHello | 2-patterns/creational/factory/interfacefactory.go:14-25 | what each kind of human prints: a person prints "Hi, my name is <name>, I am <age> years old" with the age in `%d` form, a tired person gives the refusal, and the two never coincide |
| InterfaceFactory.GreetingByAge | 2-patterns/creational/factory/interfacefactory.go:14-25 | the greeting is the refusal exactly when the age is over 100; otherwise it starts with the name, and for ages 0 to 100 it ends with " years old" after decimal digits that read back as the age |
| InterfaceFactory.InterfaceFactoryDemo | 2-patterns/creational/factory/interfacefactory.go:37-43 | James, 34, greets with his name and age; Eleanor, 101, refuses |
| FactoryGenerator.NewFunctionalEmployeeFactory | 2-patterns/creational/factory/factorygenerator.go:16-20 | a function that makes, for every name, an employee with that name and the captured position and income |
| FactoryGenerator.FunctionalFactoryMakes | 2-patterns/creational/factory/factorygenerator.go:16-20 | a functional factory's employee has the name asked for and the factory's position and income |
| FactoryGenerator.EmployeeFactory.constructor | 2-patterns/creational/factory/factorygenerator.go:37-42 | stores the position and income |
| FactoryGenerator.EmployeeFactory.Create | 2-patterns/creational/factory/factorygenerator.go:33-35 | the name asked for and the factory's current position and income |
| FactoryGenerator.FactoriesAgree | 2-patterns/creational/factory/factorygenerator.go:16-35 | a structural and a functional factory with the same values make the same employee |
| FactoryGenerator.FactoryGeneratorDemo | 2-patterns/creational/factory/factorygenerator.go:44-58 | Adam the developer, Jane the manager and a boss on the raised income 110000 |
| FactoryPrototype.NewPrototypeEmployee | 2-patterns/creational/factory/prototypefactory.go:18-27 | a new, nameless developer on 60000 or manager on 80000; only those two roles are accepted |
| FactoryPrototype.PrototypeFactoryDemo | 2-patterns/creational/factory/prototypefactory.go:29-38 | naming one manager does not name the next one, a different object |

## Left out

- Printing: `fmt.Println`/`Printf` in `addLine` and `addLineCached`, in the email setters' warnings, in `Fly`, `Crawl`, `SayHello` and `UseIt`, and every demonstration function. Where a print carries the result (`Fly`, `Crawl`, `SayHello`, `UseIt`), it is modelled as a returned value. The demonstrations are modelled as methods or lemmas that state what they would print.
- The cache key: the MD5 of the JSON encoding of a line. The key is the line value itself; the hash is a foreign call, and equal lines give equal keys either way.
- Concurrency: nothing in the code is synchronised, and the model is sequential.
- Go's 64-bit `int` wrap-around is not modelled; integers are unbounded. The same holds for `width*height` in `NewBuffer`.
- `Adapter.DrawPoints`: the points are a sequence, not a value implementing the raster-image interface; the adapter's `GetPoints` supplies it.
- `Lsp.UseIt`: the `Sized` interface is limited to its two implementations in the file, `Rectangle` and `Square`.
- `Singleton.GetTotalPopulationEx`: the `Database` interface is limited to its one implementation, `DummyDatabase`.
- `BuilderParameter.SendEmail`: the Go action is a function over the builder. Here it is a list of builder calls (`BuildStep`), which covers every action written with the four setters.
- `BuilderParameter.EmailBuilder.From`: the `'@'` check only prints a warning, so it is left out.
- `BuilderFacets`: the facets embed a copy of the person builder in Go. Here each facet holds the shared person directly.
- `CopyMethod`: the embedded `Person` of `PersonWithFriends` has its two fields inlined. A slice is an array whose capacity equals its length. Sub-slices and spare capacity are not modelled.
- `CopyMethod.CopyMethodDemo`: only the slice literal's case is modelled, where `append` reallocates.
- `PrototypeFactory.PFEmployee.DeepCopy`: the JSON round trip is modelled as a value copy. Its error branches only print, and cannot be taken for this struct of strings and ints.
- `NeuralNetworks`: a layer's neurons are objects of their own. Go keeps them by value in a slice and hands out pointers to its elements.
- `Facade`: fields that nothing writes after construction are constants.
- `Srp.Journal.String`: its contract covers zero and one entries; longer journals are described through `Srp.JoinSnoc`, `Srp.JoinNewlines` and `AddEntry`.
- Not modelled:
  - the SOLID files `1-solid/isp.go`;
  - the bridge and decorator examples (`float32` sizes and printing only);
  - the file-backed singleton (`os`, `bufio`, `strconv`, `sync.Once`) and the demo built on it;
  - the JSON-only copy example;
  - `srp.go`'s persistence (`ioutil.WriteFile`) and its empty `Save` stubs;
  - the `main` packages.

## Findings

| source | as written | input that shows it | evidently intended | confidence | as-written member | corrected member |
|---|---|---|---|---|---|---|
| 2-patterns/structural/adapter/adaptercaching.go:43 | on a miss, the cache stores the whole accumulated point buffer under the line's key | convert lines (0,0)-(0,0) then (1,1)-(1,1); a second conversion of (1,1)-(1,1) alone gives both (0,0) and (1,1) | store only the points of that line, so a hit appends what an uncached `addLine` would | high, from the code's text; not executed | AdapterCaching.HitReplaysEarlierLines | AdapterCaching.PerLineCacheMatchesRasterize |
