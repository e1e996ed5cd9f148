# kicad-mcp core, modelled in Dafny

This project models the schematic-building core of kicad-mcp. kicad-mcp is a Model Context Protocol server that creates, edits and checks KiCad schematics. The model covers:

- **Placement geometry.** The A4 layout manager with grid, row, column, group and hierarchical layouts (`component_layout.dfy`). Boundary validation and auto-correction (`boundary_validator.dfy`). The coordinate conventions (`coordinate_converter.dfy`).
- **Pins and routing.** The pin mapper, with quarter-turn rotation, pin tables, connection rules and bus routes (`pin_mapper.dfy`). The wire router, with Manhattan routes, obstacle detours, segment merging and priority ordering (`wire_router.dfy`).
- **S-expressions.** The handler's builders, its parsers back into dictionaries and its pretty-printer (`sexpr_handler.dfy`). The schematic generator, which emits the `lib_symbols` section, symbol blocks and wires (`sexpr_generator.dfy`).
- **Circuit descriptions.** The YAML-item and sectioned-line parsers of the text-to-schematic tool, and its validation summary (`text_to_schematic.dfy`).
- **Netlists.** Depth-based extraction of sub-expressions. JSON schematics read into components and nets, with duplicate references renamed. The netlist analysis (`netlist_parser.dfy`).
- **Classifiers and tools.** The lib_id and symbol classifiers, the power-symbol and schematic-check tools, and boundary validation of a project (`validation_tools.dfy`, `circuit_tools.dfy`). Component value parsing and formatting (`component_utils.dfy`). Footprint suggestion and placement grids (`symbol_utils.dfy`). Circuit pattern recognition (`pattern_recognition.dfy`).
- **Bookkeeping.** DRC history (`drc_history.dfy`). Migration monitoring and planning (`migration_monitor.dfy`, `migration_utils.dfy`). The temporary-directory registry (`temp_dir_manager.dfy`). `.env` loading (`env.dfy`). Project-file discovery (`file_utils.dfy`). Project names (`kicad_utils.dfy`).
- **System-test logic.** The S-expression and component-count validators (`validators.dfy`). Test-configuration linting (`test_config.dfy`). Template substitution (`temp_manager.dfy`).

`common.dfy` holds the shared string, dictionary and rounding helpers:

- Python dictionaries are sequences of key/value pairs. They keep insertion order, and updating an existing key keeps its place.
- Reals are exact rationals.
- Python's `round` and `int` are written out.

**Effects become parameters.** Each of the following is a parameter or an input value:

- file contents, directory listings and environment variables;
- UUIDs, clocks and hashes;
- the printing of the generator's coordinates and angles (a `fmt` parameter);
- what a regular expression or a foreign parser would find.

**State.** Where the source updates objects in place, the model uses classes with `modifies` clauses. This covers the layout manager, pin mapper, wire router, S-expression generator, schematic parser, history file, migration monitor, temp-dir registry and config loader. Each loop in the source is a method with invariants. Its `ensures` ties the result or the new state to a specification function, or states outright what it computes. Lemmas state the properties of those functions.

## Model

| member | source | states |
|---|---|---|
| Common.RoundIsNearest | kicad_mcp/utils/component_layout.py:167-168 | Python's round() gives the nearest integer, the even one on a tie, and leaves whole numbers unchanged |
| Common.Trunc | kicad_mcp/tools/circuit_tools.py:713-714 | Python's int() on a float truncates toward zero, on both sides of zero |
| CoordinateConverter.MmToKicadUnits | kicad_mcp/utils/coordinate_converter.py:23-35 | with one KiCad unit per millimetre, a point in millimetres is the same point in KiCad units |
| CoordinateConverter.KicadUnitsToMm | kicad_mcp/utils/coordinate_converter.py:37-49 | dividing by one unit per millimetre gives the point back unchanged |
| CoordinateConverter.LayoutToKicad | kicad_mcp/utils/coordinate_converter.py:51-66 | layout coordinates are millimetres, so the KiCad point is their unit conversion, which is the point itself |
| CoordinateConverter.KicadToLayout | kicad_mcp/utils/coordinate_converter.py:68-78 | the layout point is the KiCad point converted to millimetres, which is the point itself |
| CoordinateConverter.UnitsAreMillimetres | kicad_mcp/utils/coordinate_converter.py:9-49 | with one internal unit per millimetre both conversions are the identity |
| CoordinateConverter.ConversionRoundTrip | kicad_mcp/utils/coordinate_converter.py:23-78 | converting to internal units and back (and layout to KiCad and back) returns the input |
| CoordinateConverter.UsableAreaWithinSheet | kicad_mcp/utils/coordinate_converter.py:80-104 | for a non-negative margin a point valid for the usable area is valid for the sheet |
| CoordinateConverter.DefaultUsableArea | kicad_mcp/utils/coordinate_converter.py:93-104 | with the default margin the usable area is the inclusive box [20,277]x[20,190] |
| CoordinateConverter.ValidatePosition | kicad_mcp/utils/coordinate_converter.py:127-132 | the usable-area check iff use_margins is set, the whole-sheet check otherwise |
| KicadUtils.BaseName | kicad_mcp/utils/kicad_utils.py:161 | the base name has no '/' |
| KicadUtils.ProjectNameLength | kicad_mcp/utils/kicad_utils.py:152-162 | the name has length max(0, len(basename) - 10) |
| KicadUtils.ProjectNameRestoresBaseName | kicad_mcp/utils/kicad_utils.py:161-162 | for a base name ending in ".kicad_pro", name + ".kicad_pro" is the base name |
| KicadUtils.ProjectNameHasNoDirectory | kicad_mcp/utils/kicad_utils.py:161 | the name is a prefix of the base name and holds no '/' |
| KicadUtils.ProjectNameFromPath | kicad_mcp/utils/kicad_utils.py:152-162 | the name is a prefix of the base name, ten characters shorter (empty for a base name of at most ten) |
| TempDirManager.RegisterIdempotent | kicad_mcp/utils/temp_dir_manager.py:15-16 | registering a directory twice is the same as registering it once |
| TempDirManager.RegisterKeepsOrder | kicad_mcp/utils/temp_dir_manager.py:9-16 | after registering, the directory is present, earlier entries keep their order as a prefix, and none is duplicated |
| TempDirManager.TempDirRegistry.constructor | kicad_mcp/utils/temp_dir_manager.py:6 | the registry starts empty |
| TempDirManager.TempDirRegistry.RegisterTempDir | kicad_mcp/utils/temp_dir_manager.py:9-16 | the registry becomes Registered(old registry, dir) |
| TempDirManager.TempDirRegistry.GetTempDirs | kicad_mcp/utils/temp_dir_manager.py:19-25 | returns a copy equal to the registry |
| ComponentUtils.PrefixLength | kicad_mcp/utils/component_utils.py:352 | the length of the leading run of letters and underscores: every character before it is one, the next one is not |
| ComponentUtils.PrefixLengthIsRun | kicad_mcp/utils/component_utils.py:352 | any leading run that cannot be extended is the one measured |
| ComponentUtils.ReferenceTypeIsMaximalRun | kicad_mcp/utils/component_utils.py:336-353 | the type is the upper-cased maximal leading run of letters and underscores ("" when there is none) |
| ComponentUtils.ReferenceTypeExamples | kicad_mcp/utils/component_utils.py:346-350 | "R101" gives "R", "SW_SPDT2" gives "SW_SPDT" and "12" gives "" |
| ComponentUtils.DigitsValueBound | kicad_mcp/utils/component_utils.py:170 | n digits denote a value below 10^n, and 0 iff all are zeros |
| ComponentUtils.IntegralIffZeroFraction | kicad_mcp/utils/component_utils.py:298 | a parsed number is integral iff its fraction digits are all zero |
| ComponentUtils.TrimTrailingZeros | kicad_mcp/utils/component_utils.py:300 | the fraction digits without their trailing zeros |
| ComponentUtils.NatToStringValue | kicad_mcp/utils/component_utils.py:299 | the printed digits of n read back as n |
| ComponentUtils.TrailingZerosKeepFraction | kicad_mcp/utils/component_utils.py:300 | trailing zero digits do not change a fraction's value |
| ComponentUtils.Canonical | kicad_mcp/utils/component_utils.py:300 | the digits Python prints for a parsed number are well formed |
| ComponentUtils.CanonicalKeepsValue | kicad_mcp/utils/component_utils.py:300 | the printed digits keep the value |
| ComponentUtils.FormatValueDenotes | kicad_mcp/utils/component_utils.py:286-300 | an integral value is printed as its integer without a point; any other as its shortest decimal digits, which denote the same value; the unit follows |
| ComponentUtils.DigitRunEnd | kicad_mcp/utils/component_utils.py:167 | the end of a maximal run of digits |
| ComponentUtils.FirstInline | kicad_mcp/utils/component_utils.py:167 | the leftmost position where digits, a k/m/r letter and digits match |
| ComponentUtils.InlineResistance | kicad_mcp/utils/component_utils.py:166-175 | the inline form reads as a well-formed number whole.frac |
| ComponentUtils.FirstDigit | kicad_mcp/utils/component_utils.py:178 | the first digit of the text, or None iff it has no digit |
| ComponentUtils.SpaceRunEnd | kicad_mcp/utils/component_utils.py:178 | the end of a run of whitespace |
| ComponentUtils.StandardResistance | kicad_mcp/utils/component_utils.py:177-187 | the standard form parses iff the text has a digit |
| ComponentUtils.ExtractResistance | kicad_mcp/utils/component_utils.py:143-189 | every parse is a well-formed number |
| ComponentUtils.ResistanceNoneIffNoDigit | kicad_mcp/utils/component_utils.py:143-189 | (None, None) iff the text has no digit |
| ComponentUtils.ResistanceUnits | kicad_mcp/utils/component_utils.py:166-189 | the unit is always Ω, kΩ or MΩ; the inline form wins when present and its letter picks the unit |
| ComponentUtils.InlineResistanceExample | kicad_mcp/utils/component_utils.py:159-160 | "4R7" gives (4.7, Ω) |
| ComponentUtils.FirstSeries | kicad_mcp/utils/component_utils.py:50 | the leftmost 78 or 79 followed by two digits |
| ComponentUtils.SeriesVoltage | kicad_mcp/utils/component_utils.py:49-58 | strategy 1 yields only voltages below 50 |
| ComponentUtils.FirstKnown | kicad_mcp/utils/component_utils.py:84-86 | the voltage of the first known part number the text contains case-insensitively, or None iff it contains none |
| ComponentUtils.KnownVoltagesAreNotUnknown | kicad_mcp/utils/component_utils.py:77-83 | no known part number maps to "unknown" |
| ComponentUtils.SeriesVoltageFirst | kicad_mcp/utils/component_utils.py:49-58 | the first 78xx/79xx occurrence below 50 gives "<n>V" without a sign, before any other strategy |
| ComponentUtils.SeriesExample7805 | kicad_mcp/utils/component_utils.py:36-37 | "LM7805CT" gives "5V" |
| ComponentUtils.SeriesExample7912 | kicad_mcp/utils/component_utils.py:42-43 | "7912" gives "12V" |
| ComponentUtils.UnknownIffNoStrategy | kicad_mcp/utils/component_utils.py:16-88 | "unknown" iff no strategy applies |
| ComponentUtils.NormalizeKeepsUnparsed | kicad_mcp/utils/component_utils.py:303-333 | the value changes only when an R/C/L parse succeeds, and then it is the formatted parse, or when a U-type part yields a known voltage |
| ComponentUtils.NormalizeResistorWithoutDigits | kicad_mcp/utils/component_utils.py:323-333 | a resistor value without digits is returned as given |
| ComponentUtils.PowerPrefixRule | kicad_mcp/utils/component_utils.py:370-376 | the prefix rule is exactly "starts with V, PS or REG" after upper-casing, and it alone makes a component power-related |
| ComponentLayout.SizeOf | kicad_mcp/utils/component_layout.py:107-119 | sizes are positive; an unknown type takes the default 10 by 8 |
| ComponentLayout.BoxAt | kicad_mcp/utils/component_layout.py:258-260 | the recorded box is centred on the position with the type's size |
| ComponentLayout.OverlapSymmetric | kicad_mcp/utils/component_layout.py:51-58 | overlap is symmetric |
| ComponentLayout.OverlapIffCommonPoint | kicad_mcp/utils/component_layout.py:35-58 | two boxes overlap iff some point lies in both closed boxes |
| ComponentLayout.SeparatedBoxesDoNotOverlap | kicad_mcp/utils/component_layout.py:51-58 | boxes further apart than their half widths do not overlap |
| ComponentLayout.TouchingBoxesOverlap | kicad_mcp/utils/component_layout.py:51-58 | boxes that only touch count as overlapping |
| ComponentLayout.A4Limits | kicad_mcp/utils/component_layout.py:61-91 | the A4 defaults give x in [20, 277] and y in [20, 190], and usable sizes are the limit differences |
| ComponentLayout.ValidPositionIffBoxWithin | kicad_mcp/utils/component_layout.py:133-154 | a position is valid iff the type's whole box lies within the inclusive limits |
| ComponentLayout.SnapCoordIsNearest | kicad_mcp/utils/component_layout.py:156-169 | a snapped coordinate is on the grid and within half a grid step |
| ComponentLayout.SnapIsOnGrid | kicad_mcp/utils/component_layout.py:156-169 | both snapped coordinates are on the grid and within half a step |
| ComponentLayout.SnapOnGrid | kicad_mcp/utils/component_layout.py:156-169 | a point on the grid is its own snap |
| ComponentLayout.SnapIdempotent | kicad_mcp/utils/component_layout.py:156-169 | snapping twice is snapping once |
| ComponentLayout.HasCollisionIffSomeOverlap | kicad_mcp/utils/component_layout.py:233-235 | a collision iff the candidate overlaps some placed box |
| ComponentLayout.InColsIffBelow | kicad_mcp/utils/component_layout.py:217 | the column loop's test holds for exactly the first NumCols columns |
| ComponentLayout.InRowsIffBelow | kicad_mcp/utils/component_layout.py:215 | the row loop's test holds for exactly the first NumRows rows |
| ComponentLayout.ScanRowIsFirstFit | kicad_mcp/utils/component_layout.py:217-226 | the row scan finds the first fitting column, or none fits |
| ComponentLayout.ScanRowsIsFirstFit | kicad_mcp/utils/component_layout.py:215-228 | the sheet scan finds the first fitting probe in row-major order, or none fits |
| ComponentLayout.Fallback | kicad_mcp/utils/component_layout.py:231 | the fallback is the top-left probe |
| ComponentLayout.FindValidPositionIsFirstFit | kicad_mcp/utils/component_layout.py:171-231 | the snapped preferred point when it is valid and collision-free; else the first valid collision-free probe in row-major order; else the snapped top-left point |
| ComponentLayout.BoxesOf | kicad_mcp/utils/component_layout.py:258-260 | one box per placed entry, at its position |
| ComponentLayout.BoxesOfAppend | kicad_mcp/utils/component_layout.py:258-260 | placing one more entry records exactly its box |
| ComponentLayout.CeilSqrt | kicad_mcp/utils/component_layout.py:307 | positive for positive n |
| ComponentLayout.CeilSqrtIsCeiling | kicad_mcp/utils/component_layout.py:307 | the integer ceiling of the square root |
| ComponentLayout.CeilDivIsCeiling | kicad_mcp/utils/component_layout.py:308 | the integer ceiling of n / d |
| ComponentLayout.GridSpacingFor | kicad_mcp/utils/component_layout.py:311-319 | the grid spacing is at least the component spacing |
| ComponentLayout.GridShapeFor | kicad_mcp/utils/component_layout.py:306-308 | a non-empty grid has at least one column |
| ComponentLayout.GridCellIsDivMod | kicad_mcp/utils/component_layout.py:323-324 | the cell is (i // cols, i % cols) |
| ComponentLayout.RowSpacingFor | kicad_mcp/utils/component_layout.py:350-352 | the row spacing is at least the component spacing |
| ComponentLayout.MaxHeightIsMax | kicad_mcp/utils/component_layout.py:378-383 | the maximum component height, attained by some component |
| ComponentLayout.ColumnSpacingFor | kicad_mcp/utils/component_layout.py:384-391 | the column spacing is at least the component spacing and the tallest height plus 5 |
| ComponentLayout.TypesInOrder | kicad_mcp/utils/component_layout.py:456-461 | the distinct types of the components, each one that occurs |
| ComponentLayout.OfType | kicad_mcp/utils/component_layout.py:456-461 | the components of one type |
| ComponentLayout.Unplaced | kicad_mcp/utils/component_layout.py:264-299 | the entries with their positions erased |
| ComponentLayout.GroupedByTypeIsPermutation | kicad_mcp/utils/component_layout.py:456-461 | the grouped order is a permutation of the input |
| ComponentLayout.CountViolations | kicad_mcp/utils/component_layout.py:527-535 | never more violations than boxes |
| ComponentLayout.OutOfLimitsIffInvalid | kicad_mcp/utils/component_layout.py:133-154 | a box is out of limits iff its position is invalid |
| ComponentLayout.NoViolationsWhenAllWithin | kicad_mcp/utils/component_layout.py:527-535 | boxes all within limits give zero violations |
| ComponentLayout.ColumnEntriesShape | kicad_mcp/utils/component_layout.py:367-417 | every column entry has the one snapped x and the k-th the snapped k-th row y |
| ComponentLayout.HierarchicalLayoutRegroups | kicad_mcp/utils/component_layout.py:451-499 | every component is positioned once, in the grouped-by-type order |
| ComponentLayout.LayoutManager.constructor | kicad_mcp/utils/component_layout.py:121-131 | without bounds the A4 sheet; default spacings; nothing placed |
| ComponentLayout.LayoutManager.FindNextGridPosition | kicad_mcp/utils/component_layout.py:203-231 | the nested scan returns the first fitting probe or the fallback |
| ComponentLayout.LayoutManager.FindValidPosition | kicad_mcp/utils/component_layout.py:171-201 | returns the position FindValidPositionIsFirstFit describes, without recording it |
| ComponentLayout.LayoutManager.PlaceComponent | kicad_mcp/utils/component_layout.py:237-262 | records exactly one box at the chosen position, earlier boxes unchanged |
| ComponentLayout.LayoutManager.ClearLayout | kicad_mcp/utils/component_layout.py:544-546 | nothing remains placed |
| ComponentLayout.LayoutManager.Statistics | kicad_mcp/utils/component_layout.py:501-542 | counts every placed box, violations at most that count, all zero for an empty layout |
| ComponentLayout.LayoutManager.LayoutGrid | kicad_mcp/utils/component_layout.py:301-343 | fails iff there are no components; otherwise places them in grid order and records their boxes |
| ComponentLayout.LayoutManager.LayoutRow | kicad_mcp/utils/component_layout.py:345-365 | places each component in a row, offered the previous one's final y, and records their boxes |
| ComponentLayout.LayoutManager.LayoutColumn | kicad_mcp/utils/component_layout.py:367-417 | clears the layout; fails iff there are no components; otherwise stacks them at one x and records only their boxes |
| ComponentLayout.LayoutManager.PlaceGroup | kicad_mcp/utils/component_layout.py:487-495 | places each member of a group in its zone, shifted by the zone origin |
| ComponentLayout.LayoutManager.LayoutHierarchical | kicad_mcp/utils/component_layout.py:451-499 | the hierarchical layout, leaving this manager's boxes untouched |
| ComponentLayout.LayoutManager.AutoLayout | kicad_mcp/utils/component_layout.py:264-299 | dispatches to the strategy and states which boxes each leaves recorded |
| ComponentLayout.AutoLayoutPositionsEveryComponent | kicad_mcp/utils/component_layout.py:264-299 | every modelled strategy returns each component once with a position, in input order or, for the hierarchical one, grouped by type |
| BoundaryValidation.IssuesBySeverity | kicad_mcp/utils/boundary_validator.py:56-58 | exactly the issues of the given severity, each one kept, in report order |
| BoundaryValidation.SeveritiesPartition | kicad_mcp/utils/boundary_validator.py:17-24 | the three severity filters together account for every issue exactly once |
| BoundaryValidation.HasErrorsIffErrorIssues | kicad_mcp/utils/boundary_validator.py:48-54 | has_errors / has_warnings hold iff the error / warning list is non-empty |
| BoundaryValidation.PositionIssue | kicad_mcp/utils/boundary_validator.py:83-138 | the size is ignored; ERROR iff outside [0,297]x[0,210], WARNING iff inside that but outside [20,277]x[20,190], INFO otherwise; ERROR and WARNING carry the layout's suggested position, INFO none and the "position is valid" message |
| BoundaryValidation.SuggestionInsideUsableArea | kicad_mcp/utils/boundary_validator.py:99-137 | on an empty A4 layout every suggested position lies inside the usable area |
| BoundaryValidation.ComponentIssue | kicad_mcp/utils/boundary_validator.py:157-193 | the issue for one component: a missing position is INFO, a non-pair position an ERROR at (0,0) with no suggestion; the issue is an out-of-bounds grade iff the component has coordinates outside the usable area |
| BoundaryValidation.Issues | kicad_mcp/utils/boundary_validator.py:157-193 | one issue per component, in component order |
| BoundaryValidation.ReportShape | kicad_mcp/utils/boundary_validator.py:195-221 | total_components is the input length, success iff out_of_bounds_count is 0, and an unreadable position is an error issue that does not make the report fail |
| BoundaryValidation.NoneOutIffZero | kicad_mcp/utils/boundary_validator.py:195-199 | out_of_bounds_count is 0 iff no component has coordinates graded ERROR or WARNING |
| BoundaryValidation.CorrectionsAreLastSuggestions | kicad_mcp/utils/boundary_validator.py:195-199 | corrected_positions has a key iff some component with that reference is out of bounds, its value is the suggestion for the last such component, and no key repeats |
| BoundaryValidation.CorrectionsComeFromIssues | kicad_mcp/utils/boundary_validator.py:195-199 | every corrected position is the suggestion of some out-of-bounds component with that reference |
| BoundaryValidation.ValidatedCountIsCountedComponents | kicad_mcp/utils/boundary_validator.py:202-209 | validated_components counts the INFO issues whose message contains "position is valid" |
| BoundaryValidation.NoPositionNotValidated | kicad_mcp/utils/boundary_validator.py:165-170 | a missing position is not counted as validated when the reference does not mention the phrase |
| BoundaryValidation.NoPositionCanCountAsValidated | kicad_mcp/utils/boundary_validator.py:202-209 | a component without a position whose reference is "position is valid" is counted as validated, because the count tests the message text |
| BoundaryValidation.ValidateWireConnection | kicad_mcp/utils/boundary_validator.py:223-262 | at most two ERROR issues without suggestion: WIRE_START iff the start is outside the sheet, WIRE_END iff the end is, start first |
| BoundaryValidation.Corrected | kicad_mcp/utils/boundary_validator.py:278-294 | same length and order; a component whose reference has a correction gets that position, every other one is unchanged |
| BoundaryValidation.AutoCorrectionClearsOutOfBounds | kicad_mcp/utils/boundary_validator.py:264-294 | on A4, after auto-correction no component is out of bounds |
| BoundaryValidation.BoundaryValidator.constructor | kicad_mcp/utils/boundary_validator.py:72-81 | the bounds are the given sheet or A4, with an empty layout |
| BoundaryValidation.BoundaryValidator.ValidateComponentPosition | kicad_mcp/utils/boundary_validator.py:83-138 | returns PositionIssue for the current layout |
| BoundaryValidation.BoundaryValidator.ValidateCircuitComponents | kicad_mcp/utils/boundary_validator.py:140-221 | clears the layout and returns the report CircuitReport of the components |
| BoundaryValidation.BoundaryValidator.AutoCorrectPositions | kicad_mcp/utils/boundary_validator.py:264-294 | returns the report and Corrected of the components by its corrected positions |
| PinMapper.QuarterTurnIsUnit | kicad_mcp/utils/pin_mapper.py:48-71 | at a quarter-turn angle exactly one of cosine and sine is non-zero, and cos² + sin² = 1 |
| PinMapper.RotatePreservesNorm | kicad_mcp/utils/pin_mapper.py:48-71 | rotating a pin offset keeps its distance from the symbol centre |
| PinMapper.ConnectionPoint | kicad_mcp/utils/pin_mapper.py:48-71 | the wire attaches at the pin tip: the offset rotated with the component, then `length` along the pin's own direction plus the component's rotation |
| PinMapper.ConnectionPointPeriodic | kicad_mcp/utils/pin_mapper.py:48-71 | whole turns of the component do not move the connection point |
| PinMapper.ConnectionPointUnrotated | kicad_mcp/utils/pin_mapper.py:48-71 | an unrotated right-pointing pin attaches `length` to the right of its offset |
| PinMapper.ConnectionPointQuarterTurn | kicad_mcp/utils/pin_mapper.py:48-71 | a quarter turn maps offset (x, y) to (−y, x) and points a right-pointing pin upwards |
| PinMapper.StandardPinLayouts | kicad_mcp/utils/pin_mapper.py:101-164 | standard layouts exist for exactly the listed part types |
| PinMapper.StandardLayoutsNumbered | kicad_mcp/utils/pin_mapper.py:101-164 | every standard layout numbers its pins "1", "2", ... in order |
| PinMapper.PlacePins | kicad_mcp/utils/pin_mapper.py:193-204 | one pin per layout entry, each carrying the component's reference, position and rotation |
| PinMapper.FindPin | kicad_mcp/utils/pin_mapper.py:215-221 | the first pin with the number, or None iff no pin has it |
| PinMapper.CanConnectSymmetricWithoutPower | kicad_mcp/utils/pin_mapper.py:230-269 | without a power-type pin the rules do not depend on the order of the pins |
| PinMapper.PowerRuleIsOneSided | kicad_mcp/utils/pin_mapper.py:237-245 | with two power pins only the second pin's direction counts, so a power output feeding a power input passes one way and fails the other |
| PinMapper.CanConnectOutcomes | kicad_mcp/utils/pin_mapper.py:230-269 | ground on either side connects; two outputs or two inputs do not; otherwise the pair connects iff one side is passive or bidirectional |
| PinMapper.ConnectNeighbours | kicad_mcp/utils/pin_mapper.py:290-299 | after a connection each pin is a neighbour of the other and every other neighbour set is unchanged |
| PinMapper.ConnectKeepsSymmetric | kicad_mcp/utils/pin_mapper.py:290-299 | recording a connection keeps the adjacency symmetric |
| PinMapper.ConnectRegistersBoth | kicad_mcp/utils/pin_mapper.py:290-299 | both pin ids have an entry afterwards and ids stay distinct |
| PinMapper.WireRouteShape | kicad_mcp/utils/pin_mapper.py:308-386 | a route runs from the start pin's tip to the end pin's tip, as one nearly aligned segment or an axis-aligned L |
| PinMapper.Max | kicad_mcp/utils/pin_mapper.py:408-413 | the maximum of the values |
| PinMapper.Min | kicad_mcp/utils/pin_mapper.py:408-413 | the minimum of the values |
| PinMapper.MeanBetween | kicad_mcp/utils/pin_mapper.py:402-405 | the mean of values in [lo, hi] lies in [lo, hi] |
| PinMapper.PinPointsAt | kicad_mcp/utils/pin_mapper.py:402-403 | the i-th bus point is the i-th pin's connection point |
| PinMapper.CalculateBusRoute | kicad_mcp/utils/pin_mapper.py:388-432 | the loop returns the routes BusRoutes describes |
| PinMapper.BusRoutes | kicad_mcp/utils/pin_mapper.py:388-432 | nothing for fewer than two pins; otherwise one two-point wire per pin from its tip straight to a horizontal bus at the mean y or a vertical bus at the mean x |
| PinMapper.BusWires | kicad_mcp/utils/pin_mapper.py:417-430 | one wire per point to the bus line, keeping x on a horizontal bus and y on a vertical one |
| PinMapper.BusWithinPins | kicad_mcp/utils/pin_mapper.py:402-413 | the bus line lies within the spread of the pins |
| PinMapper.PinCountPut | kicad_mcp/utils/pin_mapper.py:436-437 | replacing a component's pins changes the total pin count by the difference of the two counts |
| PinMapper.ComponentPinMapper.constructor | kicad_mcp/utils/pin_mapper.py:166-169 | no components and no connections |
| PinMapper.ComponentPinMapper.AddComponent | kicad_mcp/utils/pin_mapper.py:171-209 | stores the custom pins, or the type's standard layout (none for an unknown type), placed on the component, replacing an earlier entry for the reference; connections unchanged |
| PinMapper.ComponentPinMapper.GetComponentPins | kicad_mcp/utils/pin_mapper.py:211-213 | [] for an unknown reference |
| PinMapper.ComponentPinMapper.GetPin | kicad_mcp/utils/pin_mapper.py:215-221 | None for an unknown reference; otherwise a pin of the component with the number |
| PinMapper.ComponentPinMapper.GetPinConnectionPoint | kicad_mcp/utils/pin_mapper.py:223-228 | a point iff the pin exists, and then its connection point |
| PinMapper.ComponentPinMapper.AddConnection | kicad_mcp/utils/pin_mapper.py:271-301 | refused and nothing changes when a pin is missing or the pair cannot connect; otherwise each pin joins the other's neighbour set |
| PinMapper.ComponentPinMapper.GetConnectedPins | kicad_mcp/utils/pin_mapper.py:303-306 | nothing for a pin without connections |
| PinMapper.ComponentPinMapper.GetStatistics | kicad_mcp/utils/pin_mapper.py:434-444 | all zero for an empty mapper |
| PinMapper.ComponentPinMapper.ClearMappings | kicad_mcp/utils/pin_mapper.py:446-449 | no components and no connections remain |
| PinMapper.ConnectionIsMutual | kicad_mcp/utils/pin_mapper.py:290-299 | a connection makes each pin a neighbour of the other |
| PinMapper.TwoTwoPinPartsGiveFourPins | kicad_mcp/utils/pin_mapper.py:171-209 | a two-pin resistor and a two-pin LED give four pins in total |
| WireRouting.StartPoint | kicad_mcp/utils/wire_router.py:69-72 | the first segment's start, or the origin without segments |
| WireRouting.EndPoint | kicad_mcp/utils/wire_router.py:74-77 | the last segment's end, or the origin without segments |
| WireRouting.IntersectsIffCommonPoint | kicad_mcp/utils/wire_router.py:87-100 | the obstacle test holds iff some point of the segment's extent lies within the obstacle |
| WireRouting.ChainAppend | kicad_mcp/utils/wire_router.py:209-236 | two chains joined end to start form one chain |
| WireRouting.ManhattanCases | kicad_mcp/utils/wire_router.py:209-236 | the four outcomes of Manhattan routing, decided by the two offsets |
| WireRouting.ManhattanIsChain | kicad_mcp/utils/wire_router.py:209-236 | at most two chained segments from the start, ending at the end unless a vertical offset of at most 0.1 is dropped |
| WireRouting.RouteDirect | kicad_mcp/utils/wire_router.py:238-248 | one segment from start to end |
| WireRouting.DetourShape | kicad_mcp/utils/wire_router.py:282-316 | three chained segments from the segment's start to its end, with the middle run 2.54 outside the obstacle |
| WireRouting.AvoidKeepsChain | kicad_mcp/utils/wire_router.py:264-280 | avoiding an obstacle keeps a chain a chain with the same ends |
| WireRouting.AvoidAllKeepsChain | kicad_mcp/utils/wire_router.py:250-262 | avoiding every obstacle in turn keeps the chain and its ends |
| WireRouting.RouteSegmentsChained | kicad_mcp/utils/wire_router.py:134-170 | every strategy yields a chain from the start to where the Manhattan route (or the direct route) ends |
| WireRouting.AvoidObstacle | kicad_mcp/utils/wire_router.py:264-280 | the loop replaces each intersecting segment by its detour, keeping chains and their ends |
| WireRouting.RouteOptimized | kicad_mcp/utils/wire_router.py:250-262 | the Manhattan route with each obstacle avoided in turn, still chained to the same end |
| WireRouting.TryMergeIff | kicad_mcp/utils/wire_router.py:358-381 | two segments merge iff they meet, share the horizontal or vertical type and are collinear within 0.1; the merge spans first start to second end |
| WireRouting.MergeFromLength | kicad_mcp/utils/wire_router.py:333-356 | merging keeps between half (rounded up) and all of the segments |
| WireRouting.MergeFromKeepsChain | kicad_mcp/utils/wire_router.py:333-356 | merging keeps a chain a chain with the same ends |
| WireRouting.OptimizeRouteSegments | kicad_mcp/utils/wire_router.py:333-356 | the loop merges consecutive segments, keeping between half and all of them and the chain's ends |
| WireRouting.MergePass | kicad_mcp/utils/wire_router.py:341-355 | the loop's output is `MergeFrom` of the segments, whose length and chain ends the lemmas above bound |
| WireRouting.OptimizeEach | kicad_mcp/utils/wire_router.py:330-331 | one route per input route, in order, each with its segments merged and its other fields unchanged |
| WireRouting.MergeCollinearExample | kicad_mcp/utils/wire_router.py:358-381 | two collinear horizontal segments meeting at (10, 10) merge into one |
| WireRouting.InsertByPriority | kicad_mcp/utils/wire_router.py:326 | inserting adds exactly the one route |
| WireRouting.SortByPriority | kicad_mcp/utils/wire_router.py:326 | sorting keeps the number of routes |
| WireRouting.SortByPriorityIsOrderedPermutation | kicad_mcp/utils/wire_router.py:324-331 | routes come out in descending priority and none is added or lost |
| WireRouting.DistributionSums | kicad_mcp/utils/wire_router.py:397-402 | every route is counted under exactly one priority |
| WireRouting.PriorityDistribution | kicad_mcp/utils/wire_router.py:397-402 | the loop's counts are the distribution, summing to the number of routes |
| WireRouting.WireRouter.constructor | kicad_mcp/utils/wire_router.py:114-120 | the given bounds, no obstacles or routes, 2.54 grid and wire spacing |
| WireRouting.WireRouter.AddObstacle | kicad_mcp/utils/wire_router.py:122-124 | the obstacle is appended; routes unchanged |
| WireRouting.WireRouter.ClearObstacles | kicad_mcp/utils/wire_router.py:126-128 | no obstacles remain; routes unchanged |
| WireRouting.WireRouter.ClearRoutes | kicad_mcp/utils/wire_router.py:130-132 | no routes remain; obstacles unchanged |
| WireRouting.WireRouter.RouteConnection | kicad_mcp/utils/wire_router.py:134-170 | one route between the two pins' connection points, chained from the first, appended to the routes |
| WireRouting.WireRouter.RouteMultiPointNet | kicad_mcp/utils/wire_router.py:172-207 | nothing for fewer than two pins; otherwise a star from the first pin, one route per other pin, appended; route i joins the first pin to pin i+1 for the net at the given priority, and its segments are the strategy's chain between their connection points around the obstacles held before the call (`StarRoute`) |
| WireRouting.WireRouter.OptimizeRoutes | kicad_mcp/utils/wire_router.py:324-331 | the routes in descending priority, each with its segments merged; their number unchanged |
| WireRouting.WireRouter.GetRoutingStatistics | kicad_mcp/utils/wire_router.py:383-395 | no statistics without routes; otherwise route and segment counts and a priority distribution summing to the route count |
| WireRouting.DistributionExample | kicad_mcp/utils/wire_router.py:397-402 | priorities 1 and 2 give one route at each |
| SexprHandling.CreateBooleanSymbol | kicad_mcp/utils/sexpr_handler.py:139-164 | the symbol yes iff the value is "yes" or "true" in any case, no iff "no" or "false"; any other value raises ValueError (None) |
| SexprHandling.BooleanSpellings | kicad_mcp/utils/sexpr_handler.py:139-164 | "TRUE" gives yes, "No" gives no, "y" is rejected |
| SexprHandling.FormatAtom | kicad_mcp/utils/sexpr_handler.py:919-932 | None becomes `""`; numbers and symbols are bare; a string is quoted, without escaping, iff it is empty or holds whitespace or `"` |
| SexprHandling.FormatStringRoundTrip | kicad_mcp/utils/sexpr_handler.py:928-932 | stripping the added quotes gives every string back |
| SexprHandling.QuotesAreNotEscaped | kicad_mcp/utils/sexpr_handler.py:930-931 | a string holding `"` is wrapped without escaping, so the output quoting is ambiguous |
| SexprHandling.BuildSymbolDefinition | kicad_mcp/utils/sexpr_handler.py:937-948 | ("symbol" "Device:R") for UnknownLib; ("symbol" "power:X" (power)) for power; ("symbol" "lib:sym") otherwise |
| SexprHandling.BuildDeviceSymbol | kicad_mcp/utils/sexpr_handler.py:950-952 | agrees with the general builder for the Device library |
| SexprHandling.BuildPowerSymbolDefinition | kicad_mcp/utils/sexpr_handler.py:954-959 | agrees with the general builder for the power library, with the (power) flag third |
| SexprHandling.SymbolFlagsAndHiddenProperties | kicad_mcp/utils/sexpr_handler.py:319-397 | the four flags are bare yes/no symbols, and exactly the Footprint and Datasheet properties end in `hide` |
| SexprHandling.WithDefaultPosition | kicad_mcp/utils/sexpr_handler.py:966-971 | a missing or false position becomes (100, 100); a present one and every other key are kept |
| SexprHandling.DefaultPositionIsScaled | kicad_mcp/utils/sexpr_handler.py:964-971 | without a position a component is placed at 1000 1000 internal units |
| SexprHandling.GetComponentType | kicad_mcp/utils/sexpr_handler.py:845-872 | the explicit type when given; else the first matching rule on the lower-cased symbol name and library |
| SexprHandling.ComponentTypeHasSize | kicad_mcp/utils/sexpr_handler.py:845-872 | an inferred type always has a size in the layout table |
| SexprHandling.SubstringRuleCatchesOtherNames | kicad_mcp/utils/sexpr_handler.py:869-870 | a symbol named "Mic" is typed as an IC, because "ic" is matched as a substring |
| SexprHandling.ParseBuiltSymbol | kicad_mcp/utils/sexpr_handler.py:673-703 | a built symbol instance parses back to its lib_id, scaled position and angle, UUID, reference and value |
| SexprHandling.ParseBuiltWire | kicad_mcp/utils/sexpr_handler.py:705-725 | a wire built from two endpoints parses back with those endpoints |
| SexprHandling.ShortWireHasNoEnds | kicad_mcp/utils/sexpr_handler.py:705-725 | a wire with fewer than two points has no start or end |
| SexprHandling.ChildrenCollectedInOrder | kicad_mcp/utils/sexpr_handler.py:644-671 | symbol and wire children are collected in order under "symbols" and "wires", absent when there are none |
| SexprHandling.OtherKeysKeepLastValue | kicad_mcp/utils/sexpr_handler.py:664-669 | any other key holds the value of the last plain child with that key |
| SexprHandling.TypeIsHead | kicad_mcp/utils/sexpr_handler.py:649-669 | "type" is the head unless a child uses that key |
| SexprHandling.PlainListKeyBreaksCollection | kicad_mcp/utils/sexpr_handler.py:654-669 | a plain (symbols ...) child before a symbol child makes the source's append fail |
| SexprHandling.ParseSymbolSexpr | kicad_mcp/utils/sexpr_handler.py:673-703 | the loop yields the symbol record of the children, or failure |
| SexprHandling.ParseWireSexpr | kicad_mcp/utils/sexpr_handler.py:705-725 | the loop yields the wire record of the children, or failure |
| SexprHandling.CollectPoints | kicad_mcp/utils/sexpr_handler.py:714-717 | the loop collects the xy points in order |
| SexprHandling.ParseSexprToDict | kicad_mcp/utils/sexpr_handler.py:644-671 | the loop yields the dictionary of the expression, or failure |
| SexprHandling.Lines | kicad_mcp/utils/sexpr_handler.py:774 | splitting at newlines gives at least one line |
| SexprHandling.LinesJoin | kicad_mcp/utils/sexpr_handler.py:773-775 | splitting and joining at newlines gives the text back |
| SexprHandling.FirstLine | kicad_mcp/utils/sexpr_handler.py:774 | the first line is the text up to the first newline, or all of it |
| SexprHandling.CleanLinesKeepsNonSpace | kicad_mcp/utils/sexpr_handler.py:773-775 | trimming line ends keeps every non-whitespace character in order |
| SexprHandling.CleanLinesKeepsHead | kicad_mcp/utils/sexpr_handler.py:773-775 | trimming keeps a leading prefix without newline that ends in a non-whitespace character |
| SexprHandling.SkipSpaces | kicad_mcp/utils/sexpr_handler.py:753-755 | the index of the first non-whitespace character at or after the start |
| SexprHandling.PrettyFormat | kicad_mcp/utils/sexpr_handler.py:737-775 | every non-whitespace input character is kept, in order, exactly once; a schematic's output starts with "(kicad_sch" |
| SexprHandling.NextPiece | kicad_mcp/utils/sexpr_handler.py:743-770 | one step emits text with the same non-whitespace characters as the current one and moves past it and only whitespace; within the schematic header it emits the character itself |
| SexprHandling.SexprHandler.constructor | kicad_mcp/utils/sexpr_handler.py:27-33 | an empty UUID map and a fresh, empty pin mapper |
| SexprHandling.SexprHandler.BuildSymbolSexpr | kicad_mcp/utils/sexpr_handler.py:319-397 | the symbol instance of the component, with its UUID stored under its reference |
| SexprHandling.SexprHandler.BuildComponentSymbol | kicad_mcp/utils/sexpr_handler.py:964-971 | the instance of the component with the default position filled in, its UUID stored |
| SexprHandling.SexprHandler.BuildPowerSymbol | kicad_mcp/utils/sexpr_handler.py:973-979 | a missing or empty reference becomes "#PWR" plus the map size + 1 in three digits; the instance is then built and its UUID stored |
| SexprHandling.SexprHandler.BuildWireSexpr | kicad_mcp/utils/sexpr_handler.py:581-642 | None without all four pin keys or all four coordinate keys; the pin form wins, and gives None when a pin has no connection point; with both points, the two pins are joined in the connections iff they may be connected, and otherwise the connections are unchanged |
| SexprGeneration.GetComponentType | kicad_mcp/utils/sexpr_generator.py:421-451 | an explicit component_type wins; otherwise the first rule that matches the lower-cased symbol name or library decides, and "default" is the fallback |
| SexprGeneration.ComponentTypeAgreesWithHandler | kicad_mcp/utils/sexpr_generator.py:421-451 | the generator and the S-expression handler give every component the same type, except names containing "atmega" |
| SexprGeneration.AtmegaTypedDifferently | kicad_mcp/utils/sexpr_generator.py:448-451 | "ATmega8" is "default" to the generator and "ic" to the handler |
| SexprGeneration.SymbolDefinition | kicad_mcp/utils/sexpr_generator.py:130-147 | the power definition iff the library is "power", named after the symbol; the specific definition for Device R, C, L, LED, D; the resistor for anything else |
| SexprGeneration.Indent | kicad_mcp/utils/sexpr_generator.py:125 | each definition line keeps its place, with four spaces in front |
| SexprGeneration.InsertSorted | kicad_mcp/utils/sexpr_generator.py:114-122 | adding a lib_id to the sorted set keeps it strictly sorted and adds exactly that element |
| SexprGeneration.SortedSetSpec | kicad_mcp/utils/sexpr_generator.py:108-122 | the sorted set of lib_ids is strictly increasing and holds exactly the collected ids |
| SexprGeneration.SortedUnique | kicad_mcp/utils/sexpr_generator.py:122 | two strictly sorted lists with the same elements are equal, so the order in which lib_ids were collected does not show |
| SexprGeneration.LibIds | kicad_mcp/utils/sexpr_generator.py:110-119 | one lib_id per component ("library:symbol", defaulting to Device and R) and then one "power:<type>" per power symbol, in order |
| SexprGeneration.DefinitionsFor | kicad_mcp/utils/sexpr_generator.py:122-124 | one definition lookup per id, in order |
| SexprGeneration.DefinitionsBodyDefined | kicad_mcp/utils/sexpr_generator.py:122-125 | the section body exists iff every lib_id splits into library and symbol |
| SexprGeneration.DefinitionsBodyLines | kicad_mcp/utils/sexpr_generator.py:122-125 | the body holds one definition per id, in the ids' order |
| SexprGeneration.ColonSplit | kicad_mcp/utils/sexpr_generator.py:111-123 | a lib_id built from colon-free names splits back into those names |
| SexprGeneration.ColonFreeNamesSplit | kicad_mcp/utils/sexpr_generator.py:111-124 | with colon-free library and symbol names every component's lib_id has a definition |
| SexprGeneration.DefinitionNamesItsId | kicad_mcp/utils/sexpr_generator.py:130-147 | a definition is named after its own lib_id, except that unknown Device symbols and other libraries get "Device:R" |
| SexprGeneration.LibSymbolsOnePerLibId | kicad_mcp/utils/sexpr_generator.py:103-128 | the section opens with "(lib_symbols", closes with ")" and holds one definition per distinct lib_id, in sorted order |
| SexprGeneration.LibSymbolsFailure | kicad_mcp/utils/sexpr_generator.py:122-123 | the section fails (ValueError) iff some lib_id does not split into exactly two parts |
| SexprGeneration.PowerSymbolsContributeTheirType | kicad_mcp/utils/sexpr_generator.py:116-119 | every power symbol puts "power:<type>" into the set, VCC when the type is missing |
| SexprGeneration.UnknownDeviceSymbolsShareResistorDefinition | kicad_mcp/utils/sexpr_generator.py:132-147 | an unknown Device symbol gets the resistor's definition, named "Device:R" |
| SexprGeneration.ComponentBlockShape | kicad_mcp/utils/sexpr_generator.py:474-503 | a component block has ten lines: its lib_id, the UUID recorded for it, its Reference and Value properties, pins "1" and "2", and the closing line |
| SexprGeneration.PowerReference | kicad_mcp/utils/sexpr_generator.py:508 | the given reference, else "#PWR0" followed by the UUID map's size plus one, zero-padded to three digits |
| SexprGeneration.PowerBlockShape | kicad_mcp/utils/sexpr_generator.py:505-529 | a power block exists iff the power type is given (KeyError otherwise); it names "power:<type>", its UUID, the reference, the type as Value and the single pin "1" |
| SexprGeneration.RouteLinesShape | kicad_mcp/utils/sexpr_generator.py:557-570 | a route of n points gives n - 1 three-line wire segments, segment i running from point i to point i + 1 with coordinates truncated after scaling by 10 |
| SexprGeneration.WireSegments | kicad_mcp/utils/sexpr_generator.py:531-590 | a pin-level connection gives nothing when a pin is unknown and one segment per pair of route points otherwise; a coordinate connection gives exactly one wire |
| SexprGeneration.LegacyWireDefaults | kicad_mcp/utils/sexpr_generator.py:577-588 | missing coordinates default to (100, 100) and (200, 100), scaled by 10 |
| SexprGeneration.ResolvePins | kicad_mcp/utils/sexpr_generator.py:612-618 | the net's entries resolve to at most as many pins; entries without a dot or naming an unknown pin are dropped |
| SexprGeneration.BusLinesLength | kicad_mcp/utils/sexpr_generator.py:625-641 | bus routes of two points give one segment each |
| SexprGeneration.NetLines | kicad_mcp/utils/sexpr_generator.py:604-661 | a net resolving fewer than two pins adds nothing; more than two pins use the bus routes (one segment per pin); two pins use a one- or two-segment point-to-point route |
| SexprGeneration.SkippedNetsAddNothing | kicad_mcp/utils/sexpr_generator.py:608-621 | nets that resolve fewer than two pins produce no lines |
| SexprGeneration.Placements | kicad_mcp/utils/sexpr_generator.py:351-384 | one chosen point per request; the earlier placements are kept and each request's box is recorded at its point, in order |
| SexprGeneration.Framed | kicad_mcp/utils/sexpr_generator.py:56-101 | lines that open with the header and end with the sheet instances join into text with the fixed head and tail |
| SexprGeneration.PowerRequests | kicad_mcp/utils/sexpr_generator.py:386-419 | one placement request per power symbol |
| SexprGeneration.EmitRoute | kicad_mcp/utils/sexpr_generator.py:648-661 | the emitted lines are the route's segments |
| SexprGeneration.EmitBus | kicad_mcp/utils/sexpr_generator.py:627-641 | the emitted lines are the segments of every bus route, in order |
| SexprGeneration.SchematicLines | kicad_mcp/utils/sexpr_generator.py:56-96 | the document's lines keep the two header lines at the front |
| SexprGeneration.SexprGenerator.constructor | kicad_mcp/utils/sexpr_generator.py:17-21 | a fresh A4 layout manager, a fresh empty pin mapper and an empty UUID map |
| SexprGeneration.SexprGenerator.GenerateLibSymbols | kicad_mcp/utils/sexpr_generator.py:103-128 | the lines are the lib_symbols section specified by LibSymbols |
| SexprGeneration.SexprGenerator.CollectLibIds | kicad_mcp/utils/sexpr_generator.py:108-119 | the collected set, kept sorted, is the sorted set of all lib_ids |
| SexprGeneration.SexprGenerator.DefinitionsOf | kicad_mcp/utils/sexpr_generator.py:122-125 | each id is split at its colon and given its definition, in order |
| SexprGeneration.SexprGenerator.GenerateComponentSymbol | kicad_mcp/utils/sexpr_generator.py:474-503 | the component's UUID is recorded under its reference and its block is emitted |
| SexprGeneration.SexprGenerator.GeneratePowerSymbol | kicad_mcp/utils/sexpr_generator.py:505-529 | the UUID is recorded under the (default) reference before the type is read, so a missing type fails after the map has changed |
| SexprGeneration.SexprGenerator.GenerateWire | kicad_mcp/utils/sexpr_generator.py:531-590 | the wire lines for the connection; the pin table is unchanged, and the connections become `WireConnections`: the two pins are joined iff both exist and may be connected |
| SexprGeneration.SexprGenerator.ResolveNetPins | kicad_mcp/utils/sexpr_generator.py:612-618 | the pins the entries resolve to, as ResolvePins states |
| SexprGeneration.SexprGenerator.RouteNet | kicad_mcp/utils/sexpr_generator.py:604-661 | the lines of one net, as NetLines states |
| SexprGeneration.SexprGenerator.GenerateAdvancedWireRouting | kicad_mcp/utils/sexpr_generator.py:592-663 | the lines of every net, in order |
| SexprGeneration.SexprGenerator.PlaceRequests | kicad_mcp/utils/sexpr_generator.py:351-384 | the components are placed in order and the layout records each box, as Placements states |
| SexprGeneration.SexprGenerator.PlacePowerSymbols | kicad_mcp/utils/sexpr_generator.py:386-419 | fails (KeyError) iff some power symbol has no reference; otherwise placed like components of type "power" |
| SexprGeneration.SexprGenerator.MapPins | kicad_mcp/utils/sexpr_generator.py:453-472 | every component and power symbol is registered with the pin mapper at its position, angle 0; connections are unchanged |
| SexprGeneration.SexprGenerator.EmitComponents | kicad_mcp/utils/sexpr_generator.py:78-82 | the lines are `ComponentBlocks`: each component's symbol block with the UUIDs `ids(i)`, then a blank line, in order; every component's reference ends up in the UUID map |
| SexprGeneration.SexprGenerator.EmitWires | kicad_mcp/utils/sexpr_generator.py:90-95 | the lines are `WireBlocks`, each connection's wire lines in order; the pin table is unchanged and the connections are `WireConnectionsAll` of the old ones |
| SexprGeneration.SexprGenerator.EmitPowers | kicad_mcp/utils/sexpr_generator.py:84-88 | fails iff some power symbol has no type; otherwise the lines are `PowerBlocks`, each power symbol's block then a blank line; the UUID map is `PowerUuids` up to the first symbol without a type; references already in the map stay there |
| SexprGeneration.TypedPrefix | kicad_mcp/utils/sexpr_generator.py:85-88 | the number of leading power symbols with a type: all of them iff every one has a type, and otherwise the index of one without |
| SexprGeneration.PowerBlocksReferenced | kicad_mcp/utils/sexpr_generator.py:505-529 | when every power symbol names its reference, the power blocks do not depend on the UUID map |
| SexprGeneration.SexprGenerator.GenerateSchematic | kicad_mcp/utils/sexpr_generator.py:23-101 | the text is `Schematic` of the bounds, the old UUID map and the inputs: header, lib_symbols, component blocks, power blocks and wires; it fails iff some power symbol lacks a reference or a type, or some lib_id does not split in two; otherwise it starts with the kicad_sch header, ends with the sheet instances, and every component is in the UUID map |
| SexprGeneration.SchematicIgnoresUuidMap | kicad_mcp/utils/sexpr_generator.py:23-101 | the schematic text is the same whatever the UUID map held before the call |
| TextToSchematic.SymbolFor | kicad_mcp/tools/text_to_schematic.py:65-76 | a known type gets its (library, symbol) pair from the table; any other type falls back to ("Device", "R"); the library is always Device, Switch or Connector |
| TextToSchematic.ParseDecimal | kicad_mcp/tools/text_to_schematic.py:386-387 | a number is read only from non-empty text |
| TextToSchematic.DecimalOfNat | kicad_mcp/tools/text_to_schematic.py:386-387 | the decimal text of a natural number, with or without a minus sign, reads back as that number |
| TextToSchematic.ParsePosition | kicad_mcp/tools/text_to_schematic.py:382-388 | a position is read only when stripping the parentheses and splitting at commas gives at least two pieces |
| TextToSchematic.PositionRoundTrip | kicad_mcp/tools/text_to_schematic.py:382-388 | the text "(x, y)" of two coordinates reads back as the point (x, y) |
| TextToSchematic.NatCoordinate | kicad_mcp/tools/text_to_schematic.py:386-387 | a natural number's text is a readable coordinate, with or without a minus sign |
| TextToSchematic.IntegerPosition | kicad_mcp/tools/text_to_schematic.py:382-388 | whole-number positions such as "(10, 20)" read back exactly |
| TextToSchematic.CloseFrom | kicad_mcp/tools/text_to_schematic.py:256 | the first ")" at or after the start, or none when there is none |
| TextToSchematic.GroupFrom | kicad_mcp/tools/text_to_schematic.py:256 | the leftmost match of a parenthesised group with at least one character inside, at or after the start |
| TextToSchematic.PositionGroup | kicad_mcp/tools/text_to_schematic.py:256-258 | the matched group starts with "(" and ends with ")"; there is no match iff no parenthesised group occurs in the line |
| TextToSchematic.TokensBeforeParen | kicad_mcp/tools/text_to_schematic.py:263-268 | the longest prefix of the tokens none of which holds "(" |
| TextToSchematic.WordsOfJoin | kicad_mcp/tools/text_to_schematic.py:270 | joining words with single spaces and splitting at whitespace gives the words back |
| TextToSchematic.StripWithin | kicad_mcp/tools/text_to_schematic.py:160 | stripping never creates an occurrence of a text |
| TextToSchematic.SplitFirstLacks | kicad_mcp/tools/text_to_schematic.py:166 | the first piece of a split holds no separator and starts the text; there are two or more pieces iff the separator occurs |
| TextToSchematic.ComponentLine | kicad_mcp/tools/text_to_schematic.py:244-288 | fewer than three tokens or no parenthesised group gives None; otherwise the reference is the first token, the type the lower-cased second token, and the symbol comes from the table |
| TextToSchematic.ComponentLineValue | kicad_mcp/tools/text_to_schematic.py:262-270 | the value is made of the tokens after the type up to the first one holding "(" |
| TextToSchematic.PowerLine | kicad_mcp/tools/text_to_schematic.py:309-339 | fewer than two tokens or no parenthesised group gives None; otherwise the reference is the first token |
| TextToSchematic.PowerLineType | kicad_mcp/tools/text_to_schematic.py:326-334 | the power type is made of the tokens after the reference up to the first one holding "(" |
| TextToSchematic.AtParts | kicad_mcp/tools/text_to_schematic.py:199-212 | None without ":"; otherwise the stripped reference, the text before the first " at ", and the text between it and the next " at " |
| TextToSchematic.ComponentItem | kicad_mcp/tools/text_to_schematic.py:195-242 | a YAML component needs ":" and " at " in its text; its type is lower case and its symbol comes from the table |
| TextToSchematic.InfoComponent | kicad_mcp/tools/text_to_schematic.py:214-238 | the component described by the text before " at ", with its type in lower case and its symbol from the table |
| TextToSchematic.InfoComponentWords | kicad_mcp/tools/text_to_schematic.py:215-223 | the type is the lower-cased first word and the value gives back the remaining words; a component exists only with a readable position |
| TextToSchematic.PowerItem | kicad_mcp/tools/text_to_schematic.py:290-307 | a YAML power symbol needs ":" and " at "; its type is the whole text before " at " |
| TextToSchematic.Arrow | kicad_mcp/tools/text_to_schematic.py:345-353 | "→" is preferred to "->" and "->" to "—"; no separator iff none of the three occurs |
| TextToSchematic.Endpoint | kicad_mcp/tools/text_to_schematic.py:358-366 | the component holds no "."; there is a pin iff the text holds a "."; text after a second "." is dropped |
| TextToSchematic.EndpointRoundTrip | kicad_mcp/tools/text_to_schematic.py:358-366 | "component.pin" and "component" read back as they were written |
| TextToSchematic.ParseConnection | kicad_mcp/tools/text_to_schematic.py:341-376 | a connection is read iff one of the arrows occurs; neither component name holds a "." |
| TextToSchematic.ConnectionRoundTrip | kicad_mcp/tools/text_to_schematic.py:348-373 | without "→", the text before the first "->" is the start and the rest the end |
| TextToSchematic.HeaderSection | kicad_mcp/tools/text_to_schematic.py:170-172 | a section header is "components:", "power:" or "connections:" in any letter case |
| TextToSchematic.CircuitLineName | kicad_mcp/tools/text_to_schematic.py:165-167 | a "circuit" line without ":" fails (IndexError); otherwise the name has no surrounding quote characters |
| TextToSchematic.Step | kicad_mcp/tools/text_to_schematic.py:159-186 | a line fails iff it starts with "circuit" and holds no ":"; otherwise the lists only grow, and lines outside a section change nothing |
| TextToSchematic.FailureStays | kicad_mcp/tools/text_to_schematic.py:159-167 | one failing line fails the whole text |
| TextToSchematic.ReadLine | kicad_mcp/tools/text_to_schematic.py:160-186 | one pass of the loop body computes Step |
| TextToSchematic.ParseSimpleText | kicad_mcp/tools/text_to_schematic.py:149-193 | the circuit read from the text is the fold of Step over its stripped lines, or nothing once a line fails |
| TextToSchematic.ReadLines | kicad_mcp/tools/text_to_schematic.py:159-186 | the loop over the lines computes the fold of Step, and stops with failure at the first "circuit" line without ":" |
| TextToSchematic.ItemsBoundedByLines | kicad_mcp/tools/text_to_schematic.py:159-186 | each line adds at most one component, power symbol or connection |
| TextToSchematic.NothingBeforeHeader | kicad_mcp/tools/text_to_schematic.py:174-186 | lines before the first section header add nothing |
| TextToSchematic.ComponentsFromLines | kicad_mcp/tools/text_to_schematic.py:175-178 | every component is the parse of one of the text's lines |
| TextToSchematic.EmptyText | kicad_mcp/tools/text_to_schematic.py:149-193 | an empty description is an untitled circuit with nothing in it |
| TextToSchematic.CircuitName | kicad_mcp/tools/text_to_schematic.py:87-94 | circuit "X" and circuit X give X; any other key is the name itself |
| TextToSchematic.ItemTexts | kicad_mcp/tools/text_to_schematic.py:99-129 | no items give no descriptions |
| TextToSchematic.EntryTexts | kicad_mcp/tools/text_to_schematic.py:103-104 | one "ref: desc" text per mapping entry |
| TextToSchematic.Kept | kicad_mcp/tools/text_to_schematic.py:105-112 | at most one result per text |
| TextToSchematic.KeptFromTexts | kicad_mcp/tools/text_to_schematic.py:105-112 | every kept result is the parse of one of the texts |
| TextToSchematic.CollectItems | kicad_mcp/tools/text_to_schematic.py:99-129 | the loop keeps exactly the items that parse, in order |
| TextToSchematic.CollectEntries | kicad_mcp/tools/text_to_schematic.py:103-107 | the inner loop over a mapping item reads each entry as "ref: text" and keeps exactly those that parse, in entry order, after what was kept before |
| TextToSchematic.CollectTexts | kicad_mcp/tools/text_to_schematic.py:133-137 | the loop keeps exactly the connections that parse, in order |
| TextToSchematic.YamlCircuit | kicad_mcp/tools/text_to_schematic.py:81-147 | fails iff the document is not a mapping, is empty, has no circuit data or has a null section list; a failure carries the "Error parsing YAML circuit: " prefix |
| TextToSchematic.ParseYamlCircuit | kicad_mcp/tools/text_to_schematic.py:81-147 | the method computes YamlCircuit |
| TextToSchematic.YamlComponentsFromItems | kicad_mcp/tools/text_to_schematic.py:99-112 | every YAML component is the parse of one of the component section's item texts |
| TextToSchematic.Warnings | kicad_mcp/tools/text_to_schematic.py:567-575 | one warning per empty list of components, power symbols or connections, in that order |
| TextToSchematic.CircuitOutcome | kicad_mcp/tools/text_to_schematic.py:541-546 | "yaml" in any letter case reads the YAML document; anything else reads the line format, which fails iff a line fails |
| TextToSchematic.ValidationReport | kicad_mcp/tools/text_to_schematic.py:537-587 | invalid iff the parse failed; otherwise the counts are the list lengths, one "start -> end" text per connection and the warnings as Warnings states |
| NetlistParsing.SExprEnd | kicad_mcp/utils/netlist_parser.py:118-137 | the cut ends just after the first ")" that brings the depth back to 0, or at the end of the text; no earlier position closes it |
| NetlistParsing.SExprAt | kicad_mcp/utils/netlist_parser.py:118-139 | the string cut out at a match start runs from the start to SExprEnd; a start past the end gives the empty string |
| NetlistParsing.OpenUntilEnd | kicad_mcp/utils/netlist_parser.py:118-137 | from an opening parenthesis every proper prefix of the cut is still open, and a cut that closes has balanced parentheses |
| NetlistParsing.QuotedParenthesisCounts | kicad_mcp/utils/netlist_parser.py:125-135 | a ")" inside a quoted string closes the cut all the same |
| NetlistParsing.LabelNetsSpec | kicad_mcp/utils/netlist_parser.py:398-400 | every global label's net is reset to empty; other nets are unchanged and net names stay distinct |
| NetlistParsing.PowerTypeNetsSpec | kicad_mcp/utils/netlist_parser.py:403-406 | every power type gets a net; existing nets keep their pins; a new net is empty; names stay distinct |
| NetlistParsing.InfoKey | kicad_mcp/utils/netlist_parser.py:156 | a component is filed under its reference, or "Unknown" without one |
| NetlistParsing.ComponentInfo | kicad_mcp/utils/netlist_parser.py:150-157 | the component dictionary has distinct keys and at most one entry per extracted component |
| NetlistParsing.ComponentInfoKeys | kicad_mcp/utils/netlist_parser.py:150-157 | its keys are exactly the components' keys |
| NetlistParsing.ComponentInfoLast | kicad_mcp/utils/netlist_parser.py:157 | each key maps to the last component filed under it |
| NetlistParsing.SexprResult | kicad_mcp/utils/netlist_parser.py:85-94 | the counts equal the sizes of the component and net dictionaries, and there is no error |
| NetlistParsing.SexprNets | kicad_mcp/utils/netlist_parser.py:383-406 | a schematic read from text has one empty net per global label and power type, no other net and no name twice |
| NetlistParsing.SchematicParser.constructor | kicad_mcp/utils/netlist_parser.py:14-39 | the parser starts with the file's text and nothing extracted |
| NetlistParsing.SchematicParser.ExtractSExpressions | kicad_mcp/utils/netlist_parser.py:101-141 | one string per match start, each the cut SExprAt specifies |
| NetlistParsing.SchematicParser.Cut | kicad_mcp/utils/netlist_parser.py:118-139 | the inner loop computes SExprAt |
| NetlistParsing.SchematicParser.BuildNetlist | kicad_mcp/utils/netlist_parser.py:383-414 | nets become the label nets and then the power-type nets; nothing else changes |
| NetlistParsing.SchematicParser.Parse | kicad_mcp/utils/netlist_parser.py:55-99 | the result is SexprResult of what the extractors found |
| NetlistParsing.Symbols | kicad_mcp/utils/netlist_parser.py:469 | the "components" list, else the "symbol" list, else nothing |
| NetlistParsing.Coordinates | kicad_mcp/utils/netlist_parser.py:474-478 | without "position" and "at" the position is the origin with angle 0 |
| NetlistParsing.LastPropertyWins | kicad_mcp/utils/netlist_parser.py:486-493 | the last Reference entry of the property array overrides the reference and the last Value entry the value; without one the top-level field stays |
| NetlistParsing.ReadProperties | kicad_mcp/utils/netlist_parser.py:486-499 | the loop over the property array computes ApplyProperties |
| NetlistParsing.Prefix8 | kicad_mcp/utils/netlist_parser.py:519 | at most the first eight characters, exactly eight when there are that many |
| NetlistParsing.ComponentKey | kicad_mcp/utils/netlist_parser.py:517-519 | the key is the reference iff the reference is not in use yet |
| NetlistParsing.PowerType | kicad_mcp/utils/netlist_parser.py:524-525 | the lib_id is "power:" followed by the type |
| NetlistParsing.AddPin | kicad_mcp/utils/netlist_parser.py:526-532 | the pin is appended to the net, which starts empty when missing |
| NetlistParsing.PowerTypes | kicad_mcp/utils/netlist_parser.py:557-566 | at most one power type per component |
| NetlistParsing.WireUuids | kicad_mcp/utils/netlist_parser.py:555 | one entry per wire, holding its uuid or "" |
| NetlistParsing.JsonNetlist | kicad_mcp/utils/netlist_parser.py:551-569 | the counts equal the dictionary sizes, there is no error and one wire entry per wire |
| NetlistParsing.CollectSymbols | kicad_mcp/utils/netlist_parser.py:469-532 | the symbol loop computes SymbolsFold |
| NetlistParsing.CollectWireNets | kicad_mcp/utils/netlist_parser.py:539-545 | the wire loop computes WiresFold |
| NetlistParsing.ParseJsonSchematic | kicad_mcp/utils/netlist_parser.py:456-574 | the result is JsonNetlist of the data |
| NetlistParsing.JsonKeysDistinct | kicad_mcp/utils/netlist_parser.py:517-521 | component keys are distinct, at most one per symbol and at least one when there are symbols |
| NetlistParsing.DuplicateReferenceRenamed | kicad_mcp/utils/netlist_parser.py:517-521 | a second symbol with the same reference is kept under the reference, "_" and the first eight uuid characters |
| NetlistParsing.ThirdDuplicateReplaces | kicad_mcp/utils/netlist_parser.py:517-521 | a third symbol with that reference and the same uuid prefix takes the second's key and replaces it |
| NetlistParsing.PowerPinsCounted | kicad_mcp/utils/netlist_parser.py:524-532 | after the symbol loop the pins on all nets add up to the number of power symbols |
| NetlistParsing.WireNetsEmpty | kicad_mcp/utils/netlist_parser.py:539-545 | every wire with at least two points leaves an empty net under its name |
| NetlistParsing.WiresAddNoPins | kicad_mcp/utils/netlist_parser.py:539-545 | wires never add pins |
| NetlistParsing.JsonPins | kicad_mcp/utils/netlist_parser.py:524-545 | a JSON schematic has at most as many pins as power symbols, exactly as many when no wire has two points |
| NetlistParsing.ShortWiresKeepNets | kicad_mcp/utils/netlist_parser.py:542 | wires with fewer than two points leave the nets unchanged |
| NetlistParsing.NoSymbolKeys | kicad_mcp/utils/netlist_parser.py:469 | data without "components" and "symbol" parses to no components and only the wire nets |
| NetlistParsing.ExtractNetlist | kicad_mcp/utils/netlist_parser.py:417-453 | a read failure gives the error with nothing found; JSON with a "components", "symbol" or (outside S-expression text) "version" key is read as JSON; a JSON number, boolean or null gives the "not iterable" error, and a JSON list or string in which the membership test finds one of those keys gives the "no attribute 'get'" error; anything else is read by the S-expression parser; the result carries an error iff the read failed or one of those two errors arose |
| NetlistParsing.TypeCountsSum | kicad_mcp/utils/netlist_parser.py:599-603 | the type counts add up to the number of components with a lib_id |
| NetlistParsing.CountAfterPut | kicad_mcp/utils/netlist_parser.py:603 | the key's count goes up by one from 0 when missing; other counts stay |
| NetlistParsing.TypeCountsKeys | kicad_mcp/utils/netlist_parser.py:599-605 | no type is empty and none appears twice |
| NetlistParsing.TypeCountOf | kicad_mcp/utils/netlist_parser.py:599-603 | the count of a lib_id is the number of components that have it |
| NetlistParsing.PowerNetNames | kicad_mcp/utils/netlist_parser.py:615-619 | exactly the net names with one of the power prefixes, in order |
| NetlistParsing.CopyNetsSame | kicad_mcp/utils/netlist_parser.py:608-612 | copying nets with distinct names gives the same nets |
| NetlistParsing.AnalyzeNetlist | kicad_mcp/utils/netlist_parser.py:577-625 | the type counts add up to the typed components, the power nets are exactly the names with a power prefix, and the connectivity is the nets |
| NetlistParsing.CountTypes | kicad_mcp/utils/netlist_parser.py:599-603 | the counts are `TypeCounts`: one per component with a non-empty lib_id, keyed by lib_id in first-seen order |
| NetlistParsing.CopyConnectivity | kicad_mcp/utils/netlist_parser.py:607-609 | the copy is `CopyNets`: each net assigned in order, a later net with the same name replacing the earlier one's pins in place |
| NetlistParsing.FindPowerNets | kicad_mcp/utils/netlist_parser.py:614-618 | the names with a power prefix, in order (`PowerNetNames`) |
| NetlistParsing.CountPins | kicad_mcp/utils/netlist_parser.py:621 | the total is the sum of the nets' pin-list lengths |
| NetlistParsing.ErrorAnalysis | kicad_mcp/utils/netlist_parser.py:451-453 | an error result analyses to nothing at all |
| NetlistParsing.SexprNoPins | kicad_mcp/utils/netlist_parser.py:383-414 | a schematic read from text has no pin connections |
| NetlistParsing.JsonAnalysisPins | kicad_mcp/utils/netlist_parser.py:622-623 | a JSON schematic's pin connections are at most its power symbols |
| ValidationTools.ComponentTypeFromLibId | kicad_mcp/tools/validation_tools.py:255-280 | the type is always one of the rule names or "default" |
| ValidationTools.TypeOfLower | kicad_mcp/tools/validation_tools.py:259-280 | the rule chain on the lower-cased lib_id gives one of the rule names or "default" |
| ValidationTools.FirstRuleIsEarliest | kicad_mcp/tools/validation_tools.py:259-280 | the earliest matching rule decides; "default" when no rule matches |
| ValidationTools.ClassifierIsFirstMatch | kicad_mcp/tools/validation_tools.py:255-280 | the classifier is first-match over the rule table, in source order, on the lower-cased lib_id |
| ValidationTools.RuleChain | kicad_mcp/tools/validation_tools.py:259-280 | the chain of tests and the table agree rule by rule |
| ValidationTools.ClassifierIgnoresCase | kicad_mcp/tools/validation_tools.py:257 | lib_ids that differ only in letter case get the same type |
| ValidationTools.DeviceRIsResistor | kicad_mcp/tools/validation_tools.py:259-260 | "Device:R" is a resistor |
| ValidationTools.DeviceCIsCapacitor | kicad_mcp/tools/validation_tools.py:261-262 | "Device:C" is a capacitor |
| ValidationTools.LedReadsAsInductor | kicad_mcp/tools/validation_tools.py:263-266 | because ":l" is checked before "led", "Device:LED" is an inductor |
| ValidationTools.ConnectorReadsAsCapacitor | kicad_mcp/tools/validation_tools.py:261-276 | because ":c" is checked before "connector", "Connector:Conn_01x02" is a capacitor |
| ValidationTools.UnknownComponentReadsAsCapacitor | kicad_mcp/tools/validation_tools.py:261-262 | "Unknown:Component" is a capacitor, not "default" |
| ValidationTools.EmptyLibIdIsDefault | kicad_mcp/tools/validation_tools.py:279-280 | the empty lib_id is "default" |
| ValidationTools.FirstReference | kicad_mcp/tools/validation_tools.py:224-229 | without a "Reference" entry the reference is "Unknown" |
| ValidationTools.FirstReferenceWins | kicad_mcp/tools/validation_tools.py:226-229 | the first "Reference" entry decides and later ones are ignored |
| ValidationTools.PositionOf | kicad_mcp/tools/validation_tools.py:232-237 | an "at" with two values is divided by 10 into millimetres; otherwise the origin |
| ValidationTools.ComponentOf | kicad_mcp/tools/validation_tools.py:239-250 | the type is the classifier's verdict on the lib_id, which defaults to "" |
| ValidationTools.ComponentsOf | kicad_mcp/tools/validation_tools.py:217-252 | nothing without a "symbol" key, otherwise one component per symbol |
| ValidationTools.FindReference | kicad_mcp/tools/validation_tools.py:225-229 | the loop with its break finds FirstReference |
| ValidationTools.ExtractComponentsFromJson | kicad_mcp/tools/validation_tools.py:217-252 | nothing without a "symbol" key, otherwise one component per symbol, in order, as ComponentOf states |
| ValidationTools.SymbolWithoutProperties | kicad_mcp/tools/validation_tools.py:224-250 | a symbol with only lib_id "Device:R" and at [500, 500, 0] is an "Unknown" resistor at (50, 50) |
| ValidationTools.ValidatorInputs | kicad_mcp/tools/validation_tools.py:72 | one validator input per component, in order |
| ValidationTools.ResultOf | kicad_mcp/tools/validation_tools.py:88-106 | the result of a report is always a validation result, not an error |
| ValidationTools.ResultMirrorsReport | kicad_mcp/tools/validation_tools.py:88-106 | the result counts every component with one issue each, succeeds iff no component is out of bounds (iff the out-of-bounds count is 0), and has errors iff some issue is an error |
| ValidationTools.ValidateProjectBoundaries | kicad_mcp/tools/validation_tools.py:18-114 | no schematic gives the "No schematic file" error; "(kicad_sch" text uses the S-expression components; other text is read as JSON, or gives the "neither S-expression nor JSON" error; the result is the A4 validation of the components |
| ValidationTools.ValidateFound | kicad_mcp/tools/validation_tools.py:70-106 | a fresh validator on A4 checks the found components in order, and the result carries the report's success flag, counts, corrected positions, error and warning flags and issues |
| CircuitTools.ComponentTypeFromSymbol | kicad_mcp/tools/circuit_tools.py:21-51 | the type is one of the known names; "led" iff the lower-cased name is "led"; "switch" and "connector" only from those libraries; an MCU library is never "default" |
| CircuitTools.VariantNameIsDefault | kicad_mcp/tools/circuit_tools.py:27-51 | names are matched exactly: Device "R_Small" is "default", not a resistor |
| CircuitTools.DevicePassivesAgree | kicad_mcp/tools/circuit_tools.py:27-30 | for Device R and C this classifier and the validation tools' lib_id classifier agree |
| CircuitTools.LedClassifiersDisagree | kicad_mcp/tools/circuit_tools.py:33-34 | for Device LED they disagree: "led" here, "inductor" from the lib_id "Device:LED" |
| CircuitTools.PowerLibId | kicad_mcp/tools/circuit_tools.py:674-689 | a lib_id exists iff the type is one of VCC, GND, +5V, +3V3, +12V, -12V, and it is "power:" followed by the type |
| CircuitTools.PowerReference | kicad_mcp/tools/circuit_tools.py:717 | the reference is "#PWR0" followed by at least three digits |
| CircuitTools.Pad3Value | kicad_mcp/tools/circuit_tools.py:717 | the zero-padded number reads back as the number |
| CircuitTools.PowerReferenceNumber | kicad_mcp/tools/circuit_tools.py:717 | the number after "#PWR0" is one more than the power symbols already in the schematic |
| CircuitTools.PowerReferencesDistinct | kicad_mcp/tools/circuit_tools.py:717 | different counts give different references |
| CircuitTools.FirstPowerReference | kicad_mcp/tools/circuit_tools.py:717 | the first power symbol is "#PWR0001" |
| CircuitTools.ToInternal | kicad_mcp/tools/circuit_tools.py:713-714 | tenths of a millimetre truncated toward zero, as int() truncates |
| CircuitTools.ToInternalOdd | kicad_mcp/tools/circuit_tools.py:713-714 | truncation is symmetric about zero |
| CircuitTools.NewSymbolReadsBack | kicad_mcp/tools/circuit_tools.py:405-435 | a symbol entry written at (x, y) mm is read back by the boundary validation (kicad_mcp/tools/validation_tools.py:217-252) with its reference and lib_id, within 0.1 mm of (x, y), exactly there when both are whole tenths |
| CircuitTools.ExactTenths | kicad_mcp/tools/circuit_tools.py:713-714 | a coordinate converted to tenths and back moves by less than 0.1 mm, not at all when it is a whole tenth |
| CircuitTools.ReadForModification | kicad_mcp/tools/circuit_tools.py:810-834 | S-expression content is refused with a suggestion; other content is accepted iff it is JSON, with its data |
| CircuitTools.PowerCount | kicad_mcp/tools/circuit_tools.py:717 | at most one power symbol per entry |
| CircuitTools.PowerStep | kicad_mcp/tools/circuit_tools.py:653-807 | a call succeeds iff the type is known and the schematic is modifiable; the type is checked before the file; a failure leaves the file unchanged; a success appends one symbol numbered after those present |
| CircuitTools.PowerSteps | kicad_mcp/tools/circuit_tools.py:988-1012 | one result per request |
| CircuitTools.KnownCount | kicad_mcp/tools/circuit_tools.py:683 | at most one known type per request |
| CircuitTools.PowerStateAfter | kicad_mcp/tools/circuit_tools.py:988-1012 | after a batch on a modifiable schematic it is still modifiable and holds one more power symbol per request of a known type |
| CircuitTools.PowerNumbering | kicad_mcp/tools/circuit_tools.py:988-1012 | exactly the requests of a known type succeed, each numbered after the existing symbols and the successes before it |
| CircuitTools.ConsecutivePowerReferences | kicad_mcp/tools/circuit_tools.py:988-1012 | with every type known, the i-th request becomes the (n + i + 1)-th power symbol |
| CircuitTools.PowerReferencesUnique | kicad_mcp/tools/circuit_tools.py:988-1012 | with every type known, no two requests get the same reference |
| CircuitTools.UnmodifiableFailsAll | kicad_mcp/tools/circuit_tools.py:693-705 | without a modifiable schematic every call fails and the file stays as it was |
| CircuitTools.SchematicFile.constructor | kicad_mcp/tools/circuit_tools.py:693-697 | the file starts in the given state |
| CircuitTools.SchematicFile.AddPowerSymbol | kicad_mcp/tools/circuit_tools.py:653-807 | the result and the new file are those PowerStep gives |
| CircuitTools.SchematicFile.AddPowerSymbols | kicad_mcp/tools/circuit_tools.py:988-1012 | the results and the file are those PowerSteps gives; success iff every call succeeded |
| CircuitTools.CheckSchematicData | kicad_mcp/tools/circuit_tools.py:923-966 | the checks compute CheckOf of the data |
| CircuitTools.ValidateSchematic | kicad_mcp/tools/circuit_tools.py:880-979 | no schematic and unreadable non-S-expression text give their errors; S-expression text is checked through its reader and other text as JSON |
| CircuitTools.NoValueCount | kicad_mcp/tools/circuit_tools.py:955-956 | at most one warning per symbol |
| CircuitTools.ValueWarningsSpec | kicad_mcp/tools/circuit_tools.py:943-956 | the check fails (KeyError) iff some property lacks a name, or a Reference or Value property lacks a value; otherwise it warns once per symbol without a value |
| CircuitTools.ReadLabels | kicad_mcp/tools/circuit_tools.py:945-953 | the reference and value are `LabelsOf` the properties: both start as "Unknown", the last Reference or Value property sets each, and a property without a name, or a matched one without a value, is the KeyError |
| CircuitTools.SchematicWarnings | kicad_mcp/tools/circuit_tools.py:958-966 | "no components" is warned iff the schematic is empty, "no wire connections" iff there are components but no wires; never both; the issues list stays empty |
| CircuitTools.NewSymbolLabels | kicad_mcp/tools/circuit_tools.py:723-753 | the check reads a written symbol back with its reference and value, so a power symbol is never warned about |
| Validators.FirstUnderflow | tests/system/validators.py:121-129 | the first position from which the parenthesis count has gone negative, with every earlier count non-negative; None iff the count never goes negative |
| Validators.UnderflowAtClose | tests/system/validators.py:124-129 | the count first goes negative at a ')' |
| Validators.UnbalancedMeansMissingClose | tests/system/validators.py:133-136 | when no ')' is unmatched, an unbalanced text always has a positive number of missing closing parentheses |
| Validators.VerdictResult | tests/system/validators.py:115-143 | success iff the text is balanced, never underflows and starts with '(' after stripping |
| Validators.ValidateSexpr | tests/system/validators.py:115-143 | the loop's result is the verdict on the whole text: the first unmatched ')' with its line number, else the open count, else the leading-'(' test |
| Validators.FirstUnderflowAt | tests/system/validators.py:121-129 | a negative count at i with none before it makes i the first underflow |
| Validators.NoUnderflow | tests/system/validators.py:121-129 | when no prefix goes negative there is no underflow |
| Validators.ValidateFormat | tests/system/validators.py:79-105 | the result satisfies `FormatOutcome`: a missing file gives "File not found: <path>"; an unreadable file fails with a message starting "Could not read file <path>"; "json" succeeds iff the text parses; "sexpr"/"s-expression" give the S-expression verdict; any other format fails with "Unknown format: <format>" |
| Validators.SymbolCountFrom | tests/system/validators.py:262 | the number of `(symbol` plus whitespace matches never exceeds the text length |
| Validators.ValidateComponentCount | tests/system/validators.py:247-282 | success iff the file can be read and its symbol count equals the expected count |
| Validators.RunValidation | tests/system/validators.py:347-362 | the result satisfies `ValidationOutcome`: an unknown type fails with "Unknown validation type: <type>"; the counting validators raise iff `expected` is missing; file_exists succeeds iff the file exists; file_format gives the `ValidateFormat` outcome with the format defaulting to "json"; kicad_cli_validate gives the CLI validator's result; component_count gives the count verdict; power_symbol_count the power validator's result |
| Validators.RunAllValidations | tests/system/validators.py:364-391 | the run is aborted iff some request's validator raises; otherwise one result per request, in order, each satisfying `RequestOutcome`: a request lacking type or path gets the configuration error, and any other the `ValidationOutcome` of its validator |
| FileUtils.TrimTrailingSlashes | kicad_mcp/utils/file_utils.py:23 | a prefix of the path that does not end in '/' |
| FileUtils.DirName | kicad_mcp/utils/file_utils.py:23 | `os.path.dirname` gives a prefix of the path that ends in no '/' unless it is all slashes |
| FileUtils.JoinPath | kicad_mcp/utils/file_utils.py:35 | `os.path.join` ends with the name; an absolute name replaces the directory; otherwise a single '/' separates them |
| FileUtils.KicadEntry | kicad_mcp/utils/file_utils.py:29-37 | "project" always maps to the project path; any other type is recorded iff its candidate file exists, under that candidate |
| FileUtils.KicadFilesAbsent | kicad_mcp/utils/file_utils.py:29-37 | the KiCad loop records only the types it visits |
| FileUtils.KicadFilesAt | kicad_mcp/utils/file_utils.py:29-37 | with distinct type names, each type's entry is what KicadEntry gives for it |
| FileUtils.KicadTypesDistinct | kicad_mcp/utils/file_utils.py:29 | the KiCad file types are pairwise different |
| FileUtils.FirstPieceHasNoDot | kicad_mcp/utils/file_utils.py:46 | the part before the first '.' holds no '.' |
| FileUtils.DataTypeShape | kicad_mcp/utils/file_utils.py:45-48 | a derived data type is never empty and holds no '.' |
| FileUtils.DataType | kicad_mcp/utils/file_utils.py:45-48 | the type is empty only for an extension of at most one character, and holds a '.' only when it is the extension without its first character |
| FileUtils.FilePairs | kicad_mcp/utils/file_utils.py:42-50 | at most one recorded pair per listed file |
| FileUtils.LastFor | kicad_mcp/utils/file_utils.py:50 | None iff no pair has the key; otherwise the value of some pair with that key |
| FileUtils.LookupOverlay | kicad_mcp/utils/file_utils.py:50 | assigning pairs in order leaves each key with its last pair's value, and other keys unchanged |
| FileUtils.OverlayAppend | kicad_mcp/utils/file_utils.py:41-50 | assigning pairs in two runs is assigning them in one |
| FileUtils.FilePairsComplete | kicad_mcp/utils/file_utils.py:42-50 | every listed file matching the name and extension records its pair |
| FileUtils.FilePairsSound | kicad_mcp/utils/file_utils.py:42-50 | every recorded pair comes from a listed matching file |
| FileUtils.DataPairsComplete | kicad_mcp/utils/file_utils.py:41-50 | every listed file matching one of the data extensions records its pair |
| FileUtils.DataPairsSound | kicad_mcp/utils/file_utils.py:41-50 | every recorded pair comes from a listed file and one of the data extensions |
| FileUtils.ScanEntries | kicad_mcp/utils/file_utils.py:42-50 | the inner loop leaves the map updated with that extension's pairs in listing order |
| FileUtils.GetProjectFiles | kicad_mcp/utils/file_utils.py:12-55 | the map is the KiCad entries overlaid with the data-file pairs; a failed listing keeps only the KiCad entries |
| FileUtils.ProjectFiles | kicad_mcp/utils/file_utils.py:12-55 | the dictionary always has a "project" entry |
| FileUtils.LookupProjectFiles | kicad_mcp/utils/file_utils.py:12-55 | a key that some listed data file maps to holds the last such file's path; every other key holds what the KiCad loop recorded |
| FileUtils.ProjectMapsToPath | kicad_mcp/utils/file_utils.py:30-33 | "project" maps to the project path unless a data file derives the type "project" |
| FileUtils.DataFileCanShadowProject | kicad_mcp/utils/file_utils.py:45-50 | beside "/x.kicad_pro", a file "x-project.drl" replaces the "project" entry |
| FileUtils.KicadFilePresence | kicad_mcp/utils/file_utils.py:34-37 | each other KiCad type is present iff its candidate file exists, when no data file shadows it |
| FileUtils.DataFileRecorded | kicad_mcp/utils/file_utils.py:41-50 | a matching listed file makes its derived type present, pointing at a listed data file of that type |
| FileUtils.FailedListingKeepsKicadEntries | kicad_mcp/utils/file_utils.py:51-53 | when the directory cannot be listed, "project" is kept and no non-KiCad type appears |
| FileUtils.LoadProjectJson | kicad_mcp/utils/file_utils.py:58-71 | None iff the file cannot be read or is not valid JSON; otherwise the parsed document |
| MigrationUtils.MissingVars | kicad_mcp/utils/migration_utils.py:81-84 | at most one missing entry per required variable |
| MigrationUtils.IncorrectVars | kicad_mcp/utils/migration_utils.py:81-86 | at most one incorrect entry per required variable |
| MigrationUtils.MissingIffUnset | kicad_mcp/utils/migration_utils.py:81-84 | a variable is listed as missing iff it is required and unset |
| MigrationUtils.IncorrectIffMismatch | kicad_mcp/utils/migration_utils.py:85-86 | there are incorrect entries iff some required variable is set to a value that differs case-insensitively |
| MigrationUtils.CheckEnvironment | kicad_mcp/utils/migration_utils.py:67-97 | the loop yields the missing and incorrect lists; the status is fail iff either is non-empty and pass otherwise |
| MigrationUtils.EnvironmentCheckFails | kicad_mcp/utils/migration_utils.py:72-92 | the check fails iff one of the three required variables is unset or not "true" in any case |
| MigrationUtils.CheckFeatureFlags | kicad_mcp/utils/migration_utils.py:99-127 | the reported issues are those of the configuration |
| MigrationUtils.FeatureFlagsNeverFail | kicad_mcp/utils/migration_utils.py:113-125 | warning iff the handler or the fallback is off, or the rollout is above 10 without output validation; never fail |
| MigrationUtils.CountTrue | kicad_mcp/utils/migration_utils.py:176-178 | the number of compatible cases is at most the number of cases |
| MigrationUtils.CompatibilityPercentage | kicad_mcp/utils/migration_utils.py:175-182 | the percentage lies in [0, 100], equals compatible/total·100, and is 0 with no cases |
| MigrationUtils.CheckCompatibility | kicad_mcp/utils/migration_utils.py:129-206 | the check reports the percentage and its status band |
| MigrationUtils.CompatibilityBands | kicad_mcp/utils/migration_utils.py:186-199 | fail below 90, warning from 90 to below 95, pass from 95; with no cases the check fails |
| MigrationUtils.AllCompatibleIsFull | kicad_mcp/utils/migration_utils.py:175-199 | all cases compatible gives 100 and pass |
| MigrationUtils.Triggered | kicad_mcp/utils/migration_utils.py:297-318 | the ready message is never among the triggered recommendations |
| MigrationUtils.Recommendations | kicad_mcp/utils/migration_utils.py:295-323 | never empty |
| MigrationUtils.ReadyIffOnlyReadyMessage | kicad_mcp/utils/migration_utils.py:295-323 | ready iff the recommendations are exactly the ready message, which is otherwise absent; a failing environment, failing or warning checks, and failing tests each trigger their recommendation |
| MigrationUtils.ValidateMigrationReadiness | kicad_mcp/utils/migration_utils.py:26-65 | the four checks, readiness iff all pass, and the recommendations for those checks |
| MigrationUtils.ReadinessConditions | kicad_mcp/utils/migration_utils.py:26-199 | ready iff every required variable is "true", handler and fallback are on with validation above 10% rollout, at least 95% of cases are compatible and the tests pass |
| MigrationUtils.StepsWithin | kicad_mcp/utils/migration_utils.py:333-456 | the gradual steps 10/25/50/75 not above the target are exactly the first n |
| MigrationUtils.GradualPhases | kicad_mcp/utils/migration_utils.py:333-456 | one gradual phase per step within the target, in order |
| MigrationUtils.CreateMigrationPlan | kicad_mcp/utils/migration_utils.py:333-456 | the plan carries the target, "2-4 weeks" and the planned phases |
| MigrationUtils.PlanPhaseAt | kicad_mcp/utils/migration_utils.py:333-456 | the phase at each position: preparation at 0, initial at 5, then the gradual steps, then full deployment |
| MigrationUtils.PlanNumberedAndMonotone | kicad_mcp/utils/migration_utils.py:333-456 | phases are numbered 1, 2, ... in order and rollouts never decrease |
| MigrationUtils.PlanStepsWithinTarget | kicad_mcp/utils/migration_utils.py:333-456 | a gradual step is present iff it does not exceed the target, and full deployment at 100 iff the target is 100 |
| MigrationUtils.ApplyVars | kicad_mcp/utils/migration_utils.py:479-484 | at most one change per variable, and one per variable when none is rejected |
| MigrationUtils.ExecuteMigrationStep | kicad_mcp/utils/migration_utils.py:458-495 | the changes and new environment are those of setting the variables in order; completed with no errors unless a variable is rejected, then failed with that one error |
| MigrationUtils.ApplyVarsSetsAll | kicad_mcp/utils/migration_utils.py:479-484 | with distinct accepted variables, each is set to its new value and each change records its previous value |
| MigrationUtils.ApplyVarsKeepsOthers | kicad_mcp/utils/migration_utils.py:479-484 | a variable not named keeps its value |
| SymbolUtils.CommonSymbols | kicad_mcp/utils/symbol_utils.py:272-356 | twelve common symbol kinds |
| SymbolUtils.CommonSymbolsFilled | kicad_mcp/utils/symbol_utils.py:272-356 | every common symbol has a non-empty library, symbol, default value and description |
| SymbolUtils.FootprintMappings | kicad_mcp/utils/symbol_utils.py:375-392 | footprints are mapped for R, C, L, LED and D only |
| SymbolUtils.HintFilter | kicad_mcp/utils/symbol_utils.py:398-405 | the filter never grows the list |
| SymbolUtils.SuggestFootprintForSymbol | kicad_mcp/utils/symbol_utils.py:359-410 | the mapping entry, narrowed to entries mentioning the hint when at least one does |
| SymbolUtils.FilterByHint | kicad_mcp/utils/symbol_utils.py:398-405 | the loop keeps exactly the entries mentioning the lower-cased hint |
| SymbolUtils.HintFilterIsSubSequence | kicad_mcp/utils/symbol_utils.py:398-405 | the kept entries are an order-preserving selection |
| SymbolUtils.HintFilterMembers | kicad_mcp/utils/symbol_utils.py:398-405 | an entry is kept iff it is an input entry that mentions the hint |
| SymbolUtils.HintFilterEmpty | kicad_mcp/utils/symbol_utils.py:398-408 | nothing is kept iff no entry mentions the hint |
| SymbolUtils.UnmappedGetsNothing | kicad_mcp/utils/symbol_utils.py:395-396 | an unmapped symbol name gets [] whatever the library and hint |
| SymbolUtils.SuggestionsShape | kicad_mcp/utils/symbol_utils.py:395-410 | always an order-preserving selection of the mapping entry; with a matching hint exactly the matching entries, otherwise the whole entry |
| SymbolUtils.CreateSymbolPlacementGrid | kicad_mcp/utils/symbol_utils.py:413-443 | one position per component; the i-th is (start_x + (i mod g)·spacing, start_y + (i div g)·spacing) with g = ceil(sqrt(n)) |
| SymbolUtils.GridFitsSquare | kicad_mcp/utils/symbol_utils.py:431-441 | every position's column and row are below g |
| SymbolUtils.GridPositionsDistinct | kicad_mcp/utils/symbol_utils.py:434-441 | with non-zero spacing no two components share a position |
| DrcHistory.NewEntry | kicad_mcp/utils/drc_history.py:57-66 | the new entry carries the given timestamp and formatted time; missing counts become 0 and missing categories {} |
| DrcHistory.InsertDesc | kicad_mcp/utils/drc_history.py:80-84 | inserting one entry yields the old entries plus it, as a multiset |
| DrcHistory.InsertDescSorted | kicad_mcp/utils/drc_history.py:80-84 | insertion keeps a newest-first list newest first |
| DrcHistory.InsertDescMembers | kicad_mcp/utils/drc_history.py:80-84 | the inserted list holds only the new entry and old ones |
| DrcHistory.SortDesc | kicad_mcp/utils/drc_history.py:80-84 | sorting by timestamp permutes the entries |
| DrcHistory.SortDescSorted | kicad_mcp/utils/drc_history.py:80-84 | the sorted list is newest first |
| DrcHistory.Trimmed | kicad_mcp/utils/drc_history.py:78-84 | the history is left as is unless it overflows, and then holds at most 10 entries |
| DrcHistory.TrimmedKeepsNewest | kicad_mcp/utils/drc_history.py:78-84 | on overflow exactly the 10 newest entries remain, newest first, drawn from the history, and no dropped entry is newer than a kept one |
| DrcHistory.HistoryFile.constructor | kicad_mcp/utils/drc_history.py:26-41 | the history file holds the given entries, or none |
| DrcHistory.HistoryFile.SaveDrcResult | kicad_mcp/utils/drc_history.py:43-91 | the new entry is appended to the stored history (an unreadable history starts empty) and an overflowing history is trimmed to the 10 newest; a KeyError in the overflow sort leaves the file unchanged |
| DrcHistory.HistoryFile.GetDrcHistory | kicad_mcp/utils/drc_history.py:94-123 | [] without a readable history; otherwise the entries sorted newest first |
| DrcHistory.HistoryIsNewestFirst | kicad_mcp/utils/drc_history.py:114-118 | the returned history is newest first and a permutation of the stored one |
| DrcHistory.CategoryDiffPartition | kicad_mcp/utils/drc_history.py:149-169 | new, resolved and changed categories are pairwise disjoint; new plus changed plus unchanged are the current categories; resolved plus common are the previous ones; each change is current minus previous |
| DrcHistory.FindNewCategories | kicad_mcp/utils/drc_history.py:150-154 | exactly the current categories absent from the previous ones, with their current counts (`NewCategories`) |
| DrcHistory.FindResolvedCategories | kicad_mcp/utils/drc_history.py:156-160 | exactly the previous categories absent now, with their previous counts (`ResolvedCategories`) |
| DrcHistory.FindChangedCategories | kicad_mcp/utils/drc_history.py:162-170 | exactly the categories in both whose count differs, with current, previous and current minus previous (`ChangedCategories`) |
| DrcHistory.CompareWithPrevious | kicad_mcp/utils/drc_history.py:126-179 | None iff the history has fewer than 2 entries; otherwise a comparison against history[0] whose change is current minus previous violations and whose category diff is the one above, and whose previous datetime is history[0]'s or "unknown" |
| MigrationMonitor.Percent | kicad_mcp/utils/migration_monitor.py:63-65 | the rate is x/total·100, or 0 without requests |
| MigrationMonitor.Metrics | kicad_mcp/utils/migration_monitor.py:53-81 | total requests is the sum of both counts; error rate, fallback rate and average time are percentages or ratios of it, all 0 when it is 0; compatibility is the assumed constant |
| MigrationMonitor.HistoryCap | kicad_mcp/utils/migration_monitor.py:82-86 | appending keeps at most 100 entries with the new one last; below the limit nothing is dropped, at the limit only the oldest |
| MigrationMonitor.AlertsFireOnThresholds | kicad_mcp/utils/migration_monitor.py:110-168 | each alert fires iff its metric crosses its threshold; at most four alerts, one per kind, in the fixed order |
| MigrationMonitor.AlertSeverities | kicad_mcp/utils/migration_monitor.py:114-168 | error-rate and response-time alerts are critical iff beyond twice the threshold; the fallback alert is a warning; the compatibility alert is critical iff below 0.9 of the minimum |
| MigrationMonitor.OverallStatus | kicad_mcp/utils/migration_monitor.py:95-101 | healthy iff there are no alerts; warning iff there are alerts and all are warnings; critical otherwise |
| MigrationMonitor.StatusFromMetrics | kicad_mcp/utils/migration_monitor.py:95-168 | healthy iff no threshold is crossed; critical iff some metric is past its critical bound |
| MigrationMonitor.InWindow | kicad_mcp/utils/migration_monitor.py:176-179 | the in-window entries are history entries no older than the cutoff |
| MigrationMonitor.InWindowKeepsRecent | kicad_mcp/utils/migration_monitor.py:176-179 | every history entry no older than the cutoff is in the window |
| MigrationMonitor.SummaryPhrasesOnThresholds | kicad_mcp/utils/migration_monitor.py:211-234 | each phrase appears iff its strict threshold is crossed |
| MigrationMonitor.SummaryStableWhenNothingApplies | kicad_mcp/utils/migration_monitor.py:230-234 | the summary is "stable" iff no other phrase applies |
| MigrationMonitor.PhraseTexts | kicad_mcp/utils/migration_monitor.py:211-234 | one text per phrase, in order; each text is the source's literal as written, including its symbol prefix as it stands in the file: an emoji's UTF-8 bytes read as Mac Roman characters, such as U+F8FF followed by "üî¥" |
| MigrationMonitor.RisingErrorSummary | kicad_mcp/utils/migration_monitor.py:215-216 | when only the error-rate trend crosses its threshold upward, the summary is exactly that phrase's literal text |
| MigrationMonitor.StableSummary | kicad_mcp/utils/migration_monitor.py:230-234 | when no threshold is crossed, the summary is exactly the "Metrics stable" literal text |
| MigrationMonitor.Analyse | kicad_mcp/utils/migration_monitor.py:174-209 | insufficient data iff fewer than 2 in-window entries; otherwise the analysis reports the window's size and trends |
| MigrationMonitor.TrendsAreLatestMinusFirst | kicad_mcp/utils/migration_monitor.py:185-201 | each trend is the newest in-window value minus the oldest, both taken from in-window history entries |
| MigrationMonitor.Monitor.constructor | kicad_mcp/utils/migration_monitor.py:46-51 | missing thresholds mean the defaults; the history starts empty |
| MigrationMonitor.Monitor.CollectMetrics | kicad_mcp/utils/migration_monitor.py:53-88 | returns the metrics of the given stats and clock, and the history becomes the capped history with them appended |
| MigrationMonitor.Monitor.CheckHealth | kicad_mcp/utils/migration_monitor.py:90-108 | collects metrics, reports the alerts for the monitor's thresholds and the overall status of those alerts |
| Env.Unquote | kicad_mcp/utils/env.py:40-44 | removing one pair of matching surrounding quotes never lengthens the value |
| Env.UnquoteExamples | kicad_mcp/utils/env.py:40-44 | double and single quote pairs are removed, mismatched quotes are kept, and a lone `"` becomes empty |
| Env.ParseEnvLineSkips | kicad_mcp/utils/env.py:27-48 | a line is skipped iff, once stripped, it is empty, starts with "#" or has no "="; otherwise the key is the stripped text before the first "=", and the value is the stripped, unquoted text after it, home-expanded when it holds a "~" |
| Env.AppliedAppend | kicad_mcp/utils/env.py:50-52 | a later line overrides earlier ones for its key |
| Env.AppliedKeys | kicad_mcp/utils/env.py:50-52 | every loaded key was already in the environment or comes from some accepted line |
| Env.ParsedLines | kicad_mcp/utils/env.py:25-26 | one parse result per line, in file order |
| Env.LoadDotenv | kicad_mcp/utils/env.py:7-57 | without a file nothing changes and nothing is loaded; otherwise the environment and the returned map receive every accepted pair in line order |
| Env.NonEmptyStripped | kicad_mcp/utils/env.py:98-102 | the items are stripped and non-empty, with no leading or trailing whitespace |
| Env.StrippedAll | kicad_mcp/utils/env.py:99 | one stripped item per piece, in order |
| Env.NonEmptyStrippedIsSelection | kicad_mcp/utils/env.py:98-102 | the items are an order-preserving selection of the stripped pieces |
| Env.NonEmptyStrippedMembers | kicad_mcp/utils/env.py:98-102 | a string is an item iff it is the non-empty stripped form of some piece |
| Env.NonEmptyStrippedCount | kicad_mcp/utils/env.py:98-102 | there is exactly one item per piece that is not blank |
| Env.GetEnvListPieces | kicad_mcp/utils/env.py:84-102 | for any variable, the result is the order-preserving selection of the stripped comma-separated pieces of its value (or the default) that are non-empty: membership iff some piece strips to it, and one item per non-blank piece |
| Env.GetEnvList | kicad_mcp/utils/env.py:84-102 | [] for an unset or empty variable; otherwise the comma-separated items, each stripped and non-empty |
| TestConfig.NewConfig | tests/system/test_config.py:30-42 | defaults: timeout 60, skip_cleanup false, no calls and no validations |
| TestConfig.ToolNames | tests/system/test_config.py:124 | the tool names of the calls, in order |
| TestConfig.DuplicateIssues | tests/system/test_config.py:124-126 | exactly one "Duplicate tool calls" issue iff two calls name the same tool |
| TestConfig.PathIssuesCount | tests/system/test_config.py:133-138 | one issue per validation path lacking "{temp_dir}", in order |
| TestConfig.TimeoutIssues | tests/system/test_config.py:140-144 | at most one timeout issue, and none iff 5 <= timeout <= 300 |
| TestConfig.ConfigIssuesCount | tests/system/test_config.py:113-146 | the number of issues is the number of rules broken, each path without the template counted once |
| TestConfig.CleanConfigHasNoIssues | tests/system/test_config.py:113-146 | no issues iff tool names are distinct, validations are present, every path uses the template and the timeout is in range |
| TestConfig.TestConfigLoader.constructor | tests/system/test_config.py:48-50 | no configuration is loaded |
| TestConfig.TestConfigLoader.ValidateConfig | tests/system/test_config.py:113-146 | returns ConfigIssues of the configuration |
| TestConfig.TestConfigLoader.RecordLoaded | tests/system/test_config.py:80-82 | the configuration is stored under its test name |
| TestConfig.TestConfigLoader.GetConfig | tests/system/test_config.py:148-157 | the configuration stored under the name, or None |
| TestConfig.TestConfigLoader.ListLoadedConfigs | tests/system/test_config.py:159-165 | the stored names in insertion order |
| TestConfig.LoadedConfigIsReturned | tests/system/test_config.py:80-82 | the last configuration loaded under a name is the one returned for it |
| TempManager.ReplaceIsSplitJoin | tests/system/temp_manager.py:53 | `replace` cuts the text at every occurrence of the target and joins the pieces with the replacement |
| TempManager.SplitPiecesLackTarget | tests/system/temp_manager.py:53 | after replacement no original occurrence survives: no piece between cuts contains the target |
| TempManager.ReplaceWithoutTarget | tests/system/temp_manager.py:53 | text without "{temp_dir}" is unchanged |
| TempManager.SubstitutionCanCreateTemplate | tests/system/temp_manager.py:43-53 | substitution is not idempotent in general: a directory "{temp" joins the text after it into a new "{temp_dir}" |
| TempManager.SubstitutionKeepsShape | tests/system/temp_manager.py:55-74 | the result has the same keys, list lengths and order, and the same non-string leaves |
| TempManager.ItemsKeepShape | tests/system/temp_manager.py:69-70 | each list item keeps its shape |
| TempManager.EntriesKeepShape | tests/system/temp_manager.py:65-68 | each dictionary entry keeps its key and shape |
| TempManager.EveryStringLeafSubstituted | tests/system/temp_manager.py:55-74 | every string leaf is replaced by its substitution and every other leaf is unchanged |
| TempManager.ItemsSubstituted | tests/system/temp_manager.py:69-70 | every list item is substituted |
| TempManager.EntriesSubstituted | tests/system/temp_manager.py:65-68 | every dictionary value is substituted |
| PatternRecognition.CollectMember | kicad_mcp/utils/pattern_recognition.py:138-177 | an entry is reported iff some component contributes it |
| PatternRecognition.CollectOnePerComponent | kicad_mcp/utils/pattern_recognition.py:138-177 | when each component contributes at most one entry about itself, no component is reported twice |
| PatternRecognition.FindSharedNet | kicad_mcp/utils/pattern_recognition.py:146-152 | the search stops at the first net holding the part and a pin with the given prefix, and finds one iff such a net exists |
| PatternRecognition.IdentifyTransistorAmplifiers | kicad_mcp/utils/pattern_recognition.py:136-177 | the loop computes TransistorAmplifiers |
| PatternRecognition.TransistorAmplifierIff | kicad_mcp/utils/pattern_recognition.py:136-177 | a Q part with BJT, NPN or PNP in its lib_id (else FET, MOSFET or JFET) is reported, with that subtype, iff some net joins it to an R component |
| PatternRecognition.OneAmplifierPerTransistor | kicad_mcp/utils/pattern_recognition.py:136-177 | each transistor is reported at most once |
| PatternRecognition.IsGrounded | kicad_mcp/utils/pattern_recognition.py:235-242 | the ground test stops at the first of GND, AGND, DGND, VSS holding the capacitor, and succeeds iff one does |
| PatternRecognition.IdentifyRcFilters | kicad_mcp/utils/pattern_recognition.py:213-249 | the nested loops compute RcFilters |
| PatternRecognition.RcFilterIff | kicad_mcp/utils/pattern_recognition.py:213-249 | (R, C) is reported iff R is an R component, C a C reference with a pin on a ground net, and some net holds both |
| PatternRecognition.RcOfResistor | kicad_mcp/utils/pattern_recognition.py:216-249 | for each net the resistor touches, in net order, the filters found at that net's pins (`RcOnNet`); nets it does not touch add nothing |
| PatternRecognition.RcAtNetPins | kicad_mcp/utils/pattern_recognition.py:227-249 | for each pin of the net, in pin order, the (R, C) filter when the pin's component is a C reference with a pin on a ground net (`RcAtPin`) |
| PatternRecognition.IdentifyActiveFilters | kicad_mcp/utils/pattern_recognition.py:252-286 | an op-amp (by value pattern or OP_AMP lib_id) is reported iff the nets it touches hold a resistor and a capacitor |
| PatternRecognition.ActiveFilterAcrossNets | kicad_mcp/utils/pattern_recognition.py:262-286 | the resistor and the capacitor may sit on different nets of the op-amp |
| PatternRecognition.IdentifyFilters | kicad_mcp/utils/pattern_recognition.py:199-306 | the RC filters, then the active filters, then the crystal and ceramic filters per component, in order |
| PatternRecognition.AppendPackagedFilters | kicad_mcp/utils/pattern_recognition.py:288-306 | the start list followed by each component's crystal and ceramic entries (`PackagedFilterOf`), in component order |
| PatternRecognition.IdentifyCrystalOscillators | kicad_mcp/utils/pattern_recognition.py:323-353 | the loop yields the crystal oscillators as the Collect fold states |
| PatternRecognition.CrystalOscillatorIff | kicad_mcp/utils/pattern_recognition.py:328-353 | each Y, X, CRYSTAL or XTAL part yields one entry with its upper-cased value and frequency, flagged with load capacitors iff a net it touches holds a C pin; nothing else yields one |
| PatternRecognition.OneOscillatorPerCrystal | kicad_mcp/utils/pattern_recognition.py:328-353 | each crystal is reported at most once |
| PatternRecognition.FindSignalNet | kicad_mcp/utils/pattern_recognition.py:392-395 | the search stops at the first net naming a signal, and finds one iff some net does |
| PatternRecognition.FindPart | kicad_mcp/utils/pattern_recognition.py:443-447 | the search stops at the first component the IC pattern matches, and finds one iff some does |
| PatternRecognition.DetectInterface | kicad_mcp/utils/pattern_recognition.py:389-475 | one interface block: the net search, and for USB and Ethernet also the component search |
| PatternRecognition.IdentifyDigitalInterfaces | kicad_mcp/utils/pattern_recognition.py:376-477 | the five blocks in order compute DigitalInterfaces |
| PatternRecognition.ThroughSpec | kicad_mcp/utils/pattern_recognition.py:389-475 | when each kind contributes at most one entry of its own kind, an entry of the first n kinds is exactly one such contribution, and kinds strictly increase |
| PatternRecognition.FoundSpec | kicad_mcp/utils/pattern_recognition.py:389-475 | a kind contributes its one entry iff it is present |
| PatternRecognition.InterfaceIff | kicad_mcp/utils/pattern_recognition.py:376-477 | each kind appears at most once, in the order I2C, SPI, UART, USB, Ethernet, iff it is present, listing the net names that mention its signals |
| PatternRecognition.SignalNetsIff | kicad_mcp/utils/pattern_recognition.py:400 | the signal nets are exactly the net names mentioning a signal, at most one per net |
| PatternRecognition.GroundNetReadsAsSpi | kicad_mcp/utils/pattern_recognition.py:404-416 | a schematic whose only net is VSS is reported as having an SPI interface, since "SS" occurs in "VSS" |
| PatternRecognition.IdentifySensorInterfaces | kicad_mcp/utils/pattern_recognition.py:480-694 | the IC-pattern sensors followed by the prefix-based analog sensors |
| PatternRecognition.PrefixKindsDisjoint | kicad_mcp/utils/pattern_recognition.py:659-692 | a reference is at most one kind of analog sensor |
| PatternRecognition.PrefixHead | kicad_mcp/utils/pattern_recognition.py:659-683 | thermistors start RT or TH, photosensors PD or LD(R), potentiometers RV or PO(T) |
| PatternRecognition.AnalogSensorsOfKind | kicad_mcp/utils/pattern_recognition.py:659-692 | every entry collected for a kind is an analog sensor of that kind |
| PatternRecognition.AnalogSensorsAfterIcSensors | kicad_mcp/utils/pattern_recognition.py:657-692 | the IC-pattern sensors come first, unchanged; after them a component appears as a sensor of a kind iff its reference has one of that kind's prefixes |
| PatternRecognition.AnalogSensorsInKindOrder | kicad_mcp/utils/pattern_recognition.py:657-692 | after the IC-pattern sensors come the thermistors, then the photosensors, then the potentiometers |
| PatternRecognition.FirstMatch | kicad_mcp/utils/pattern_recognition.py:727-728 | a family found is in the table and its pattern finds the value or the lib_id |
| PatternRecognition.FirstMatchIsFirst | kicad_mcp/utils/pattern_recognition.py:727-834 | the family found is the first in table order that matches; none is found iff none matches |
| PatternRecognition.FindFirstMatch | kicad_mcp/utils/pattern_recognition.py:727-834 | the family loop with its break finds FirstMatch |
| PatternRecognition.IdentifyMcus | kicad_mcp/utils/pattern_recognition.py:723-834 | per component, the first matching family, then the specific model when one is identified |
| PatternRecognition.IdentifyBoards | kicad_mcp/utils/pattern_recognition.py:845-857 | per component, the first board type whose pattern finds it |
| PatternRecognition.IdentifyMicrocontrollers | kicad_mcp/utils/pattern_recognition.py:697-859 | the microcontrollers, then the development boards |
| PatternRecognition.McuOfSpec | kicad_mcp/utils/pattern_recognition.py:723-834 | each component yields at most one microcontroller entry, about itself, and one iff some family pattern finds it |
| PatternRecognition.OneMicrocontrollerPerComponent | kicad_mcp/utils/pattern_recognition.py:727-834 | no component is reported twice as a microcontroller |
| PatternRecognition.MicrocontrollerEntries | kicad_mcp/utils/pattern_recognition.py:723-834 | the entries about a component are exactly those its own family match produces |

## Left out

- MCP plumbing is not modelled: the `register_*` functions, the async tool wrappers, `Context.info`/`report_progress`, and the `create_new_project`, `add_component`, `create_wire_connection` and `create_*_from_text` tool bodies. The symbol entry `add_component` writes and its classifier are modelled (`CircuitTools.NewSymbolReadsBack`, `CircuitTools.ComponentTypeFromSymbol`).
- Reading and writing files is not modelled. File contents, JSON readings, directory listings and `os.path.exists` answers are inputs. JSON values are modelled only as the shapes the code reads: strings, numbers, lists and objects with the fields used. Dictionary aliasing is not modelled. For example, `parse_json_schematic` mutates the symbol's own `properties` dictionary.
- Exceptions that the source catches broadly are modelled as a failure value where the code path is named. These are the IndexError of a "circuit" line, the KeyError of a missing power reference or type, ValueError from `create_boolean_symbol`, and TypeError in the validators. Exceptions from malformed JSON inside the netlist and validation loops are not modelled. A netlist file whose JSON is not an object is modelled: the TypeError and AttributeError texts are CPython's wording with the value's type name as a parameter (`NetlistParsing.JsonLoad`).
- The foreign libraries `yaml.safe_load`, `json.loads`/`dump`, `sexpdata.loads`/`dumps`, `uuid.uuid4`, `datetime` and `hash` are not modelled. Their results are parameters, for example `TextToSchematic.YamlDocument`, the UUID functions of the generator, and the timestamps of the history and the monitor. The failure texts after "Error parsing YAML circuit: " are the model's own words, not Python's `str(e)`.
- Regular-expression extraction is a parameter:
  - the netlist extractors for components, wires, labels, junctions, power symbols and no-connects (`NetlistParsing.Extracted`);
  - `_extract_components_from_sexpr` and `_parse_sexpr_for_validation`;
  - the capacitance, inductance and frequency parsers of `component_utils`, and the explicit-voltage strategy of the regulator-voltage parser;
  - the part-number families of `pattern_recognition` (op-amps, USB and PHY ICs, MCU and board patterns, model identification, frequencies, IC sensors);
  - the validators' `PowerSymbolValidator` and `KiCadCLIValidator`, and their JSON check.
- Floating-point geometry is left out:
  - lengths (square roots) of wires and routes;
  - `_layout_circular`;
  - the `average_spacing` layout statistic;
  - connection points at angles that are not quarter turns;
  - the printing of the generator's coordinates and angles, which is a `fmt` parameter.
- `TextToSchematic.ParseDecimal` reads Python `float()` text only as a signed decimal with an optional point. Exponents, `inf`, `nan` and underscores are not modelled.
- Strings are sequences of characters. `lower` and `upper` are ASCII only, where Python uses Unicode. Whitespace (`Common.IsSpace`) is the six C whitespace characters: space, tab, newline, carriage return, vertical tab and form feed. Python's `str.strip`, `str.split` and `\s` also treat the separators \x1c-\x1f and the Unicode spaces as whitespace. So, for example, `Validators.Verdict` on text starting "\x1c(" differs from the source.
- ComponentUtils.FormatValueDenotes: a non-integral value is printed in plain decimal digits without trailing zeros. Python's `repr` of the float switches to scientific notation below 1e-4 and from 1e16 on (0.00001 prints as "1e-05"), and rounds to at most 17 significant digits. Neither is modelled.
- Library-symbol drawing lines are not modelled. A symbol definition is its opening and closing line, and the drawing lines between them are left out. The handler's `_build_schematic_sexpr`/`_format_sexpr` (via `sexpdata.dumps`) are left out. The unused `symbol_libraries` field is left out.
- The generator's intelligent wiring is left out: `generate_intelligent_wiring`, `_setup_routing_obstacles`, `_route_multi_point_net`, `_route_signal_connection` and `_create_wire_sexpr_from_segment`.
- WireRouting.SortByPriority: proved sorted and a permutation. Stability of Python's sort is not stated. DrcHistory.SortDesc is the same.
- Pattern recognition leaves out oscillator ICs, 555 timers, the op-amp and audio-amplifier regex branches of `identify_amplifiers`, and `identify_power_supplies`. The IC-pattern part of `identify_sensor_interfaces` is a parameter. The uniqueness lemmas assume distinct component references (`UniqueRefs`), as a dictionary guarantees.
- TextToSchematic.IntegerPosition: only whole non-negative coordinates are stated. A position with a negative coordinate such as "(-5, 15)" is covered by `TextToSchematic.PositionRoundTrip` but has no concrete lemma.
- TempManager.ReplaceIsSplitJoin: substitution is not idempotent (`TempManager.SubstitutionCanCreateTemplate`), so no idempotence is stated.
- Env.LoadDotenv: `os.putenv` rejects some keys and values. The model fixes the rejected set to an empty key, "=" in the key, or NUL in either (the predicate AcceptedByEnviron); a platform that rejects more is not modelled. The load then stops with what was set before.
- MigrationUtils.CheckCompatibility: the per-case compatibility results and the subprocess test-coverage check are parameters. Messages with `.1f` formatting use exact rounding.
- MigrationMonitor.Monitor.CollectMetrics: service statistics are a parameter. Alert message texts (`.2f`) are left out.
- Validators.RunValidation: the truthiness (`__bool__`) of a validation result is a plain field read, with no row of its own.
- ComponentLayout.LayoutManager.Statistics: total, area utilisation and bounds violations are modelled. `average_spacing` is left out.
- The generator does not reset its UUID map in `generate_schematic`. The model keeps this (`SexprGeneration.SexprGenerator.GenerateSchematic`).
- Several test expectations disagree with the code. The model follows the code:
  - tests/unit/utils/test_netlist_parser.py:105-110 expects a KeyError for data without "components". The code returns an empty result (`NetlistParsing.NoSymbolKeys`).
  - tests/unit/tools/test_validation_tools.py:291-294, 318-321 and 331 expect "led", "connector" and "default". The code gives "inductor", "capacitor" and "capacitor" (`ValidationTools.LedReadsAsInductor`, `ValidationTools.ConnectorReadsAsCapacitor`, `ValidationTools.UnknownComponentReadsAsCapacitor`).
