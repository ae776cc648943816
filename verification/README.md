# raylib-3d core, modelled in Dafny

This project models the computational core of the raylib-3d demos. It is
written in Dafny and proves properties of that model. The parts modelled are:

- **Terrain mesh builder.** `gen_mesh_terrain` turns a heightmap image into a
  flat-shaded triangle mesh. Each quad gets 18 position floats, 12 texcoord
  floats and 18 normal floats. There are two copies: unit cells in
  `src/janperlin.c` and cells stretched over a size in `janperlin.c`. Both
  are one method over a per-axis scale (`terrain_mesh.dfy`).
- **Tiled plane builder.** `gen_mesh_plane_tiled` builds a vertex grid,
  up-normals, tiled texcoords and six `unsigned short` indices per face
  (`plane_mesh.dfy`).
- **Height queries.** `get_terrain_height` reads a quad's corners at offsets
  0, 3, 6 and 15 of its 18 floats. The `terrain/main.c` version interpolates
  barycentrically; the `terrain/jan_terrain.c` version averages the four
  corners. `raycast_heightmap` marches a ray over the heightmap image
  (`height_query.dfy`).
- **Block store.** The placeable blocks of `terrain/main.c` live in an array
  of 1024 filled from the front. Removal clears the `active` flag. Each
  frame picks the nearest hit block (`block_store.dfy`).
- **Player.** The two `move_player` routines handle block collision, the
  ground snap, gravity, jumping and the jump-force toggle (`player.dfy`).
  The fly-through camera of `video_mesh.py` tests each step against the
  walls (a step through a corner can escape, see Findings). It holds the
  player on or above the video plane unless they fly down with CTRL, and it
  lets them jump and fly (`video_camera.dfy`).
- **Per-pixel image transforms.**
  - `my_perlin_image` quantises fractal noise into grey pixels
    (`noise_image.dfy`).
  - `darken_image_from_noise` comes in two variants, one building a new
    buffer and one redrawing in place.
  - `color_noise` and the violet recolour loop threshold-recolour pixels.
  - The last three are in `recolor.dfy`. `images.dfy` holds the image type,
    `GetImageData`, and an image buffer updated in place by
    `ImageDrawPixel` and `ImageResize`.
- **Room.** The 20-by-20 room table of `src/main.c`, `draw_room`'s mapping
  of table entries to wall cubes, and the turn choice of `player_movement`
  (`room.dfy`).

How the C and Python are represented:

- Floats are `real`.
- Integer casts and byte and short stores are written out explicitly
  (`TruncToInt`, `StoreByte`, `StoreUShort`).
- Calls into raylib and stb are function-valued parameters. These include
  the noise function, normalisation, collision tests, camera updates, colour
  lerp and brightness, and image resize.
- Keyboard and mouse state are plain parameters.
- Loops that fill buffers are methods over arrays, proved against functions
  that describe each buffer's finished contents.
- Records that the source updates through pointers are classes: the player
  and its camera, the block array, an image, and the fly camera.

## Model

| member | source | states |
|---|---|---|
| Images.Gray | src/janperlin.c:8 | `GRAY_VALUE` of a valid colour lies in [0, 255] |
| Images.StoreByte | janperlin.c:169 | storing into an `unsigned char` yields a byte, and a value already in byte range is kept unchanged |
| Images.GetImageData | src/janperlin.c:10-20 | the array has width*height entries; entry i is the pixel at column i % width, row i / width; the whole array is the image's row-major pixel sequence (the copy in janperlin.c:9-19 is the same routine) |
| Images.ImageBuffer.DrawPixel | src/terrain/janperlin.c:27 | `ImageDrawPixel` changes exactly pixel y*width + x when (x, y) is inside the image, and nothing otherwise |
| Images.ImageBuffer.Resize | src/terrain/janperlin.c:12 | after `ImageResize` the image in place is the resized image, with the requested size |
| NoiseImage.Intensity | terrain/perlin.c:31-38 | the quantised intensity is a byte; noise at or below -1 gives 0 and at or above 1 gives 255 |
| NoiseImage.IntensityMonotone | terrain/perlin.c:32-38 | brighter noise never gives a darker intensity |
| NoiseImage.NoisePixel | terrain/perlin.c:30-39 | every pixel is an opaque grey (r = g = b, alpha 255) with byte channels |
| NoiseImage.PerlinImage | terrain/perlin.c:43-49 | the image has the requested width and height and width*height pixels |
| NoiseImage.PerlinImageGray | terrain/perlin.c:39-49 | the image is well formed and every pixel is an opaque grey |
| NoiseImage.PerlinPixelAt | terrain/perlin.c:39 | pixel (x, y) is stored at y*width + x and holds the noise sampled for (x, y) |
| NoiseImage.SquareImageUnstretched | terrain/perlin.c:10-20 | on a square image the aspect correction leaves both sample coordinates at (i + off)*scale/size |
| NoiseImage.WideImageSameSpacing | terrain/perlin.c:15-19 | on a wide image both axes end up sampled at the same spacing, scale/height |
| NoiseImage.MyPerlinImage | terrain/perlin.c:5-52 | the nested loop returns exactly the noise image: right size, every pixel (x, y) the quantised noise at its sample point |
| NoiseImage.NoiseRow | terrain/perlin.c:13-40 | one row of the loop extends the finished prefix of the pixel array by `width` pixels |
| NoiseImage.ComputePixel | terrain/perlin.c:15-39 | the loop body's sample point, aspect correction, clamp and quantisation give the specified pixel |
| Recolor.DarkenChannel | terrain/jan_terrain.c:52-54 | a darkened channel always lies in [30, 255] |
| Recolor.DarkenChannelSaturates | terrain/jan_terrain.c:52-54 | a channel is 255 exactly when 30 + c*noise reaches 255; below that it does not exceed 30 + c*noise |
| Recolor.DarkenChannelMonotone | terrain/jan_terrain.c:51-54 | brighter noise never gives a darker channel |
| Recolor.DarkenPixel | terrain/jan_terrain.c:50-55 | a darkened pixel is opaque, with every colour channel at least 30 |
| Recolor.DarkenPixelExtremes | terrain/jan_terrain.c:51-55 | black noise gives (30, 30, 30, 255); white noise adds the full channel when that does not saturate |
| Recolor.Darkened | terrain/jan_terrain.c:59-64 | the darkened image has the noise image's dimensions, and every colour channel is at least 30 |
| Recolor.DarkenFromNoise | terrain/jan_terrain.c:40-67 | the returned image is the resized image darkened pixel by pixel by the noise image's red channel |
| Recolor.DarkenRow | terrain/jan_terrain.c:49-57 | one row of the fresh buffer extends the finished prefix by `width` pixels |
| Recolor.DarkenInPlaceAsWritten | src/terrain/janperlin.c:11-32 | the image, resized to the noise size, is darkened by its own red channel; the noise pixels play no part |
| Recolor.DarkenInPlace | src/terrain/janperlin.c:11-32 | corrected version: the image, resized in place to the noise size, is darkened by the noise image's red channel |
| Recolor.DrawDarkened | src/terrain/janperlin.c:19-30 | the nested `ImageDrawPixel` loop redraws every pixel once, leaving exactly the target image |
| Recolor.DrawDarkenedRow | src/terrain/janperlin.c:20-29 | one row of the in-place loop extends the redrawn prefix by `width` pixels |
| Recolor.DarkenInPlaceIgnoresNoise | src/terrain/janperlin.c:22 | with black noise over a white pixel, the as-written result stays white; with the noise actually read it would be (30, 30, 30, 255) |
| Recolor.ShadeChoice | src/janperlin.c:147-157 | red ≥ 120 picks GRAY with factor red/255, in [120/255, 1]; otherwise it picks DARKGREEN with factor max(red, 60)/120, in [0.5, 1) |
| Recolor.ShadeFactorMonotone | src/janperlin.c:147-157 | within each branch the lerp factor never decreases with red, and it is flat at 0.5 up to red 60 |
| Recolor.ColorNoise | src/janperlin.c:136-161 | every pixel of the image becomes the `ColorLerp` shade chosen from its own red channel |
| Recolor.VioletPixelDarker | janperlin.c:166-171 | pixels with red ≥ 150 are untouched; a recoloured pixel is opaque and no channel exceeds the grey it replaced |
| Recolor.VioletRecolour | janperlin.c:158-174 | the loop replaces each pixel by its violet shade when red < 150 and leaves every other pixel as it was |
| TerrainMesh.IsTerrainMesh | src/janperlin.c:35-44 | a finished mesh has 18 position and 18 normal floats and 12 texcoord floats per quad |
| TerrainMesh.BufferIndexDecomposes | src/janperlin.c:55-85 | every float index below 18*quads decomposes uniquely into quad cell, vertex and component, so the 18-float strides tile the buffer |
| TerrainMesh.WriteFirstTriangle | src/janperlin.c:60-70 | the first triangle stores corners (x, z), (x, z+1), (x+1, z) in its 9 floats and changes nothing else |
| TerrainMesh.WriteSecondTriangle | src/janperlin.c:73-83 | the second triangle copies vertices 3 and 2, adds corner (x+1, z+1), and changes nothing outside its 9 floats |
| TerrainMesh.WriteQuadPositions | src/janperlin.c:60-85 | a quad's 18 position floats hold its six vertices; nothing else changes |
| TerrainMesh.WriteQuadTexcoords | src/janperlin.c:88-105 | a quad's 12 texcoord floats hold the grid fractions of its six vertices; nothing else changes |
| TerrainMesh.WriteQuadNormals | src/janperlin.c:108-124 | a quad's 18 normal floats hold each vertex's triangle normal; nothing else changes |
| TerrainMesh.WriteTriangleNormal | src/janperlin.c:110-122 | the normal of a triangle is written to all three of its vertices, within the quad's 18 floats only |
| TerrainMesh.TriangleNormal | src/janperlin.c:114-122 | the three vertices of a triangle share the normal of its first corner |
| TerrainMesh.StepQuad | src/janperlin.c:59-124 | one quad body extends the finished prefix of all three buffers by one quad |
| TerrainMesh.PositionsExtended | src/janperlin.c:85 | writing quad k's 18 floats after quads 0..k-1 leaves quads 0..k complete |
| TerrainMesh.NormalsExtended | src/janperlin.c:124 | the same for the normal buffer |
| TerrainMesh.TexcoordsExtended | src/janperlin.c:105 | the same for the 12-float texcoord stride |
| TerrainMesh.FillRow | src/janperlin.c:57-125 | after row z the counters equal 18 and 12 times (z+1)*(mapX-1), and every quad of rows 0..z is in place |
| TerrainMesh.GenMeshTerrain | src/janperlin.c:24-134 | triangleCount = 2*(mapX-1)*(mapZ-1), vertexCount = 3*triangleCount, buffers exactly the allocated sizes, and every quad's positions, normals and texcoords in its own slots |
| TerrainMesh.GenMeshTerrainUnit | src/janperlin.c:50-51 | the unit-cell builder produces that mesh with scale (1, max_height, 1) |
| TerrainMesh.GenMeshTerrainSized | janperlin.c:49-50 | the sized builder produces that mesh with scale (size.x/(mapX-1), size.y, size.z/(mapZ-1)) |
| TerrainMesh.PowOfUnit | src/janperlin.c:61 | a cube of a fraction in [0, 1] stays in [0, 1] |
| TerrainMesh.GridHeightRange | src/janperlin.c:61-82 | a grid height, (grey/255)^3 times the y scale, lies between 0 and the y scale |
| TerrainMesh.TexcoordInUnitSquare | src/janperlin.c:88-104 | every texcoord lies in [0, 1] by [0, 1] |
| TerrainMesh.SizedGridSpansSize | janperlin.c:50 | with the sized scale, the grid starts at x = z = 0, and column mapX-1 lands on size.x and row mapZ-1 on size.z |
| TerrainMesh.UnitScaleOnGrid | src/janperlin.c:51-83 | with unit cells a stored vertex sits at its corner's integer column and row |
| TerrainMesh.MeshHeightsInRange | src/janperlin.c:60-83 | every height stored in a finished mesh lies in [0, scale.y] |
| TerrainMesh.QuadsShareDiagonal | src/janperlin.c:73-79 | the second triangle's first two vertices repeat the first triangle's third and second |
| TerrainMesh.FlatNormals | src/janperlin.c:108-124 | in a finished mesh the three vertices of each triangle carry the same normal |
| PlaneMesh.StoreUShort | src/custom_draw.c:147 | an `unsigned short` store gives a value in [0, 65536), exact for values already in range |
| PlaneMesh.FillPlaneVertices | src/custom_draw.c:100-109 | resX*resZ vertices; vertex (x, z) is at x + z*resX and is the centred grid point in the y = 0 plane |
| PlaneMesh.FillVertexRow | src/custom_draw.c:104-108 | one row extends the written prefix of the vertex array by resX vertices |
| PlaneMesh.FillUpNormals | src/custom_draw.c:112-114 | all vertexCount normals are (0, 1, 0) |
| PlaneMesh.FillPlaneTexcoords | src/custom_draw.c:117-123 | coordinate (u, v) is at u + v*resX and equals (u/(resX-1), v/(resZ-1)) |
| PlaneMesh.FillTexcoordRow | src/custom_draw.c:119-122 | one row extends the written prefix of the texcoord array by resX entries |
| PlaneMesh.EmitFace | src/custom_draw.c:133-139 | a face writes (i+resX, i+1, i, i+resX, i+resX+1, i+1) at t..t+5, advances t by 6 and changes nothing else |
| PlaneMesh.StepFace | src/custom_draw.c:129-140 | one pass of the face loop extends the written faces by one |
| PlaneMesh.EmitFaces | src/custom_draw.c:128-140 | after the loop t = 6*numFaces and every face's six indices are in place |
| PlaneMesh.BuildTriangles | src/custom_draw.c:126-140 | the index array has 6*numFaces entries, all written; face f's indices are at 6f..6f+5 |
| PlaneMesh.FlattenVec3 | src/custom_draw.c:150-155 | the flat buffer has three floats per vector, vector i at 3i (the same copy serves the normals at lines 163-168) |
| PlaneMesh.FlattenTexcoords | src/custom_draw.c:157-161 | two floats per coordinate, both components multiplied by resX |
| PlaneMesh.CopyIndices | src/custom_draw.c:170-172 | the index buffer holds each emitted index stored as an `unsigned short` |
| PlaneMesh.GenMeshPlaneTiled | src/custom_draw.c:91-182 | vertexCount = resX*resZ and triangleCount = 2*(resX-1)*(resZ-1) after the increments; buffers of the allocated sizes with the grid positions, up normals, tiled texcoords and per-face indices |
| PlaneMesh.IsTiledPlane | src/custom_draw.c:91-182 | a finished plane has six indices per face and three floats per vertex |
| PlaneMesh.FaceCornerIsRowCol | src/custom_draw.c:130-131 | face + face/(resX-1) is the grid cell of column face % (resX-1) and row face / (resX-1), both inside the quad grid |
| PlaneMesh.FaceIndicesAreCellCorners | src/custom_draw.c:133-139 | the six indices are the four corners of the face's cell, and each is below vertexCount |
| PlaneMesh.IndicesExactWhenSmall | src/custom_draw.c:147-172 | with at most 65536 vertices the stored indices equal the emitted ones |
| PlaneMesh.IndexWrapsOnLargeGrid | src/custom_draw.c:147 | on a 257-by-257 grid the index 66048 is stored as 512 |
| PlaneMesh.PlaneSpansExtent | src/custom_draw.c:101-108 | the first vertex is at (-width/2, 0, -length/2) and the last at (width/2, 0, length/2) |
| PlaneMesh.TexcoordFarCorner | src/custom_draw.c:158-161 | the far corner's texcoord is (resX, resX): both axes are scaled by resX |
| HeightQuery.Barycentric | terrain/main.c:98-104 | the three weights always sum to 1 |
| HeightQuery.BarycentricReproducesPoint | terrain/main.c:98-104 | for a proper triangle the weights recombine the corners into the query point |
| HeightQuery.BarycentricAtVertex | terrain/main.c:98-104 | at a corner of a proper triangle the weights are (1, 0, 0) |
| HeightQuery.ConvexCombinationBounded | terrain/main.c:139-141 | non-negative weights summing to 1 interpolate to a value between the smallest and largest corner value |
| HeightQuery.CornerBaseIsCell | terrain/main.c:118-119 | the first float read is 18 times the row-major quad number |
| HeightQuery.CornerOffsetsInBounds | terrain/main.c:113-131 | in range, every float read (base up to base+17) is below 18*(rows-1)*(cols-1) |
| HeightQuery.TerrainHeightBarycentric | terrain/main.c:106-150 | -1 when the cell lies outside [0, cols-2] by [0, rows-2]; otherwise barycentric interpolation in the quad's first or second triangle |
| HeightQuery.TerrainHeightAverage | terrain/jan_terrain.c:74-100 | -1 when the cell is out of range; otherwise the mean of the four corner heights |
| HeightQuery.BarycentricHeightBetweenCorners | terrain/main.c:136-142 | inside the first triangle the height lies between the lowest and highest of its three corners |
| HeightQuery.AverageHeightBetweenCorners | terrain/jan_terrain.c:91-97 | the average lies between the lowest and highest of the four corners |
| HeightQuery.QueryCornersAreGridPoints | terrain/main.c:118-131 | offsets 0, 3, 6 and 15 of a built quad are grid points (x, z), (x, z+1), (x+1, z) and (x+1, z+1), as src/janperlin.c:60-83 stores them |
| HeightQuery.TerrainCellsAreProper | terrain/main.c:136-146 | on a built terrain with positive cell sizes both triangles of every quad are non-degenerate, so both barycentric divisions are defined |
| HeightQuery.AverageOverUnitTerrain | terrain/jan_terrain.c:120-121 | over a unit-cell terrain the averaged height is the mean of the four grid heights around the point |
| HeightQuery.SurfaceHeight | terrain/main.c:179-183 | the surface height lies between origin.y and max_height + origin.y |
| HeightQuery.MarchPoint | terrain/main.c:164-169 | the march starts at the ray's origin |
| HeightQuery.MarchPointsEvenlySpaced | terrain/main.c:160-169 | consecutive samples are a tenth of the normalised direction apart |
| HeightQuery.Hits | terrain/main.c:176-189 | a hitting sample lies over the image and no higher than max_height above the terrain origin; with max_height ≥ 0, one over the image at or below the origin's height always hits |
| HeightQuery.SampleBelowSurface | terrain/main.c:171-192 | a sample hits exactly when its heightmap coordinates are inside the image and it is not above the surface |
| HeightQuery.RaycastHeightmap | terrain/main.c:152-198 | a hit returns the first hitting sample, at a step below 20*width (distance below 2*width); a miss means no sample hits and sets the point to zero |
| Blocks.HalfExtent | terrain/main.c:438-439 | `BLOCK_SIZE / 2` is the integer 2 |
| Blocks.NewBlockBoxCentred | terrain/main.c:437-440 | the box is centred on the block and 4 wide on every axis, one less than the drawn cube |
| Blocks.SelectTexture | terrain/main.c:430-434 | a texture index inside the two-entry `block_textures` (terrain/main.c:348), which the draw loop indexes at line 460, stays inside it after the key handling |
| Blocks.PlaceManyCounts | terrain/main.c:441 | n unchecked placements that stay in bounds add n to the count and keep the array length |
| Blocks.UncheckedPlacementOverflows | terrain/main.c:345-346 | 1024 placements fill the array and the 1025th writes past its end |
| Blocks.BlockStore.constructor | terrain/main.c:345-346 | the store starts empty |
| Blocks.BlockStore.Place | terrain/main.c:436-441 | with room, the new block is appended and count grows by one; when full, nothing changes |
| Blocks.BlockStore.Remove | terrain/main.c:443-446 | only the selected block's `active` flag is cleared; count is unchanged |
| Blocks.BlockStore.SelectNearest | terrain/main.c:393-413 | a hit is reported exactly when some active block is hit; the selected block is active and hit, no farther than any hit block, and strictly nearer than every earlier one |
| Blocks.BlockStore.Interact | terrain/main.c:385-446 | the target block is the nearest active block the ray hits, the earliest on a tie, and there is one exactly when some active block is hit; with a target block the new block goes 2.5 out along the normal of the face hit; without one the target is the first terrain sample under the view ray, lifted by 2, and a miss means no sample hits; a left click with a target appends one block at that point; a right click on a target block clears only its flag; otherwise nothing changes |
| Blocks.PlaceManyAsWritten | terrain/main.c:441 | n unchecked placements stay inside the array exactly when count + n is at most its length (or n = 0), and then add n to the count and keep the length |
| PlayerControl.ScanFrom | terrain/main.c:215-249 | the block loop either keeps the whole move or zeroes it, never part of it; floor needs at least one block left to visit |
| PlayerControl.SettleMain | terrain/main.c:261-288 | the vertical step leaves x, z and the camera offset unchanged; without floor the speed is one gravity step lower |
| PlayerControl.SettleAverage | terrain/jan_terrain.c:123-146 | the vertical step leaves x, z and the camera offset unchanged; floor needs a ground height other than -1 |
| PlayerControl.MainFrame | terrain/main.c:200-289 | a whole frame keeps a valid jump force valid and changes it exactly on a J press; without floor the speed is one gravity step lower |
| PlayerControl.AverageFrame | terrain/jan_terrain.c:102-148 | a whole frame keeps a valid jump force valid and changes it exactly on a J press |
| PlayerControl.KeyAxis | terrain/main.c:211-212 | a key pair gives +1, -1 or 0 |
| PlayerControl.ToggleJumpFlips | terrain/main.c:281-283 | the toggle keeps the jump force in {JUMP, 3*JUMP}, always changes it, and undoes itself |
| PlayerControl.MoveBody | terrain/main.c:92-95 | position and target move by the same vector, keeping the view offset; speed and jump force are kept |
| PlayerControl.ScanStopsOnlyAtBlock | terrain/main.c:233-248 | the move is zeroed if some active block is clear now but hit after the step, and survives unchanged otherwise |
| PlayerControl.ScanFloorNeedsSupport | terrain/main.c:219-231 | floor from the block loop needs an active block under the feet or at the head |
| PlayerControl.SunkIsOnGround | terrain/main.c:264-265 | a player snapped onto the ground always counts as on the floor |
| PlayerControl.LiftTo | terrain/main.c:265-268 | the snap places the position at the requested height, keeping x and z |
| PlayerControl.SettleMainVelocity | terrain/main.c:261-286 | floor is block support or feet within 1 of the ground; the speed is the jump force (floor and SPACE), 0 (floor), or one gravity step lower; the snap's -100 never survives |
| PlayerControl.SettleMainJumpForce | terrain/main.c:281-283 | the jump force stays in {JUMP, 3*JUMP} and changes exactly on a J press |
| PlayerControl.SettleMainPosition | terrain/main.c:265-288 | the player is lifted onto the ground if sunk, then moved by the new speed times dt; x, z and the view offset are kept |
| PlayerControl.SettleAverageRules | terrain/jan_terrain.c:123-146 | floor holds exactly when a height was found and the feet are within 1 of it; a jump happens only from the floor; a sunk player stops, otherwise gravity acts; then the vertical move |
| PlayerControl.MainFrameInvariants | terrain/main.c:200-289 | across a whole frame the jump force stays valid, and the speed is the jump force, 0, or one gravity step lower, according to floor and SPACE |
| PlayerControl.Player.constructor | terrain/main.c:362-365 | the player starts at rest with jump force JUMP |
| PlayerControl.Player.MovePosition | terrain/main.c:92-95 | the camera position and target move together (as in terrain/jan_terrain.c:69-72) |
| PlayerControl.Player.ScanBlocks | terrain/main.c:215-249 | the loop with `break` computes the block scan's floor flag and move |
| PlayerControl.Player.SettleMainStep | terrain/main.c:261-288 | the in-place update leaves the state and floor flag given by the specified vertical step |
| PlayerControl.Player.SettleAverageStep | terrain/jan_terrain.c:124-146 | the same for the averaging variant |
| PlayerControl.Player.EndOfFrame | terrain/main.c:280-288 | toggle, then jump when on the floor with SPACE, then the vertical move |
| PlayerControl.Player.MoveMain | terrain/main.c:200-289 | a whole `move_player` call updates the player as the frame function says and keeps the jump force valid |
| PlayerControl.Player.MoveAverage | terrain/jan_terrain.c:102-148 | the same for the `terrain/jan_terrain.c` routine (no blocks, averaged heights) |
| Room.RoomTableShape | src/main.c:17-38 | the table is 20 by 20, every entry is 0, 1 or 2, and the border is all 1 |
| Room.WallAt | src/main.c:68-73 | the wall of cell (r, c) is textured with entry minus one and centred strictly inside its TILE_SIZE tile |
| Room.WallsFrom | src/main.c:66-76 | the scan from position k draws at most one wall per remaining cell, each with a texture index in [0, texture_count) |
| Room.WallAtTileCentre | src/main.c:72-73 | a wall's centre is the midpoint of its TILE_SIZE tile, at height 2 |
| Room.ExitIffUnknownWall | src/main.c:68-70 | the scan exits exactly when some visited entry names a texture that does not exist |
| Room.WallsInsideRoom | src/main.c:66-75 | every wall drawn has a texture index in [0, texture_count) and lies inside the room, half a tile in from the edges |
| Room.RoomNeverExits | src/main.c:17-38 | with two wall textures the table never makes `draw_room` exit |
| Room.DrawRoom | src/main.c:59-78 | the nested loop emits, in row order, a wall for every positive entry, and stops at an unknown wall type |
| Room.DrawRow | src/main.c:67-75 | one row of the loop extends the emitted walls by that row's walls |
| Room.TurnRotation | src/main.c:51-55 | the turn is the mouse turn or the key turn, whichever is larger in magnitude, the key turn on a tie |
| VideoCamera.ProjectIsComponent | video_mesh.py:30-32 | `project(a, b)` is a multiple of b, and what remains of a is perpendicular to b |
| VideoCamera.ProjectOntoAxes | video_mesh.py:30-32 | projecting onto (0, 0, 1) keeps only z; onto (1, 0, 0) keeps only x |
| VideoCamera.WallClampAsWrittenRules | video_mesh.py:109-114 | leaving the x range keeps only the z part of the step; otherwise leaving the z range keeps only the x part; otherwise the step is unchanged |
| VideoCamera.WallClampCornerEscape | video_mesh.py:111-114 | from the corner (320, 0, 320) the step (1, 0, 1) passes through the z wall |
| VideoCamera.WallClampAsWritten | video_mesh.py:107-114 | as written: a step that stays inside is unchanged, and a player inside the x walls stays inside them (the z wall can be crossed, see Findings) |
| VideoCamera.WallClampMatchesOffCorner | video_mesh.py:107-114 | the corrected clamp gives the source's step except when the step leaves the x range and its z part alone still leaves the z range |
| VideoCamera.WallClamp | video_mesh.py:109-114 | corrected version: a step that stays inside is unchanged |
| VideoCamera.WallClampKeepsInside | video_mesh.py:109-114 | with the corrected clamp, a player inside the walls stays inside for every step |
| VideoCamera.MoveHorizontal | video_mesh.py:105-118 | corrected clamp: the position moves by the clamped step, the vertical speed is kept, and a player inside the walls stays inside |
| VideoCamera.Settle | video_mesh.py:120-134 | after gravity and the plane clamp the player is on or above the plane; x, z and the camera offset are kept |
| VideoCamera.Boost | video_mesh.py:136-141 | the speed changes only for a jump (SPACE, near the plane, not flying), and then to GRAVITY; walking it never moves the camera; with dt ≥ 0 it never lowers the player |
| VideoCamera.MoveVertical | video_mesh.py:120-145 | in flight the vertical speed is 0; walking, the player ends on or above the plane; x and z are kept |
| VideoCamera.Frame | video_mesh.py:85-145 | corrected clamp: a whole frame keeps a player inside the walls inside, and a walking player on or above the plane |
| VideoCamera.VerticalKeepsOffset | video_mesh.py:120-145 | the vertical part moves position and target by the same amount, only along y |
| VideoCamera.VerticalAbovePlane | video_mesh.py:125-141 | unless the player flies down with CTRL, the step ends with position.y ≥ plane_height + PLAYER_SIZE |
| VideoCamera.VerticalVelocity | video_mesh.py:120-138 | the speed is 0 when flying, GRAVITY when jumping near the plane, 0 after landing, and one gravity step lower otherwise |
| VideoCamera.JumpNeedsGround | video_mesh.py:127-138 | a speed of GRAVITY after the step needs SPACE, no flight, and the integrated height within 0.01 of the plane |
| VideoCamera.FlyCamera.constructor | video_mesh.py:63-76 | the camera starts at the origin looking down -z, at rest |
| VideoCamera.FlyCamera.Move | video_mesh.py:85-145 | corrected clamp: one pass of the movement loop updates the camera as the frame function says |
| VideoCamera.FlyCamera.MoveAcross | video_mesh.py:93-118 | corrected clamp: speed, turn, step, wall test and camera update, as the horizontal function says |
| VideoCamera.FlyCamera.Shift | video_mesh.py:116-118 | position and target move by dr, then the camera turns |
| VideoCamera.FlyCamera.MoveUpDown | video_mesh.py:120-145 | gravity, the plane clamp, the jump and flight, as the vertical function says |
| VideoCamera.FlyCamera.Fall | video_mesh.py:120-134 | gravity or flight, integration and the plane clamp; reports whether a jump is allowed |

## Left out

- Rendering, GPU upload (`UploadMesh`), model and texture loading, shaders, draw and text calls, and `draw_textured_cube` are not modelled. They produce no state the core reads.
- Memory allocation and freeing (`RL_MALLOC`, `calloc`, `UnloadImageColors`) are not modelled. Arrays are allocated with the sizes the source computes.
- The root `main.c`, the window and camera set-up in each `main`, the fog slider and scroll, the debug `sprintf`, and the mouse-capture toggle are left out: they are glue and user interface.
- Video capture, audio, the `ffmpeg` call and the GUI slider and toggle of `video_mesh.py` are I/O. The fly flag the toggle sets is a parameter of each frame.
- Floating point is modelled as exact reals. Rounding, `pow` and `sqrt` numerics, and float-to-int conversion beyond the truncation written out in `TruncToInt` are not modelled.
- The raylib and stb calls are parameters and carry no properties: `stb_perlin_fbm_noise3`, `Vector3Normalize`, `ColorLerp`, `ColorBrightness`, `ImageResize`, `GetRayCollisionBox`, `CheckCollisionBoxSphere`, `Vector3Distance`, `UpdateCameraPro`, `GetCameraForward`/`GetCameraRight`, the inverse model transform, and `vector3_rotate_by_axis_angle`.
- `raycast_heightmap` advances the distance in steps of 0.1 on a float. The model counts whole steps and takes the distance as steps/10, so float accumulation is not modelled.
- TerrainMesh.GenMeshTerrain reads the heightmap through its pixel sequence (`LoadImageColors`). `GetImageData` is modelled on its own and is not called there, matching the source.
- TerrainMesh.SizedScale puts 0 as the cell size of an axis with a single pixel. The C divides by zero there, but no quad uses the value.
- PlaneMesh.GenMeshPlaneTiled requires at least one quad per axis. With a resolution of 0 the C divides by zero and fills the vertex and texcoord buffers with non-numbers.
- HeightQuery.TerrainHeightBarycentric requires both triangles of the queried quad to be non-degenerate (`ProperCell`), because the C divides by their determinant. HeightQuery.TerrainCellsAreProper shows that every quad of a built terrain with positive cell sizes meets this. PlayerControl.MainFrame takes it for the whole terrain as `TerrainReady`.
- HeightQuery.TerrainHeightBarycentric and HeightQuery.TerrainHeightAverage return -1 as the source does. A real height of exactly -1 is indistinguishable from "outside", and the player code inherits that.
- Both `move_player` routines read the buffer through `terrain->mesh->vertices`. The model requires it to cover the grid the query indexes (`BufferCovers`), where the C would read out of bounds.
- VideoCamera.Project requires `b.b != 0`, where Python raises `ZeroDivisionError`. The only directions it is called with are the unit axes.
- VideoCamera.JumpNeedsGround excludes the one speed, GRAVITY + GRAVITY*dt, for which falling alone gives a speed of GRAVITY.
- VideoCamera.VerticalAbovePlane excludes flying with CTRL held, which moves the player below the plane by design.
- VideoCamera.FlyCamera.Move uses the corrected VideoCamera.WallClamp, not the `elif` of video_mesh.py:111-114. The as-written clamp is VideoCamera.WallClampAsWritten (see Findings), and VideoCamera.WallClampMatchesOffCorner shows the two differ only on a step that leaves through both walls.
- VideoCamera.FlyCamera.MoveAcross uses the corrected clamp too, for the same reason.
- VideoCamera.MoveHorizontal uses the corrected clamp, and so VideoCamera.Frame does too. Neither follows the source on a step that leaves through a corner.
- Blocks.BlockStore.Place checks the capacity the source does not check. The as-written placement is Blocks.PlaceAsWritten (see Findings).
- Recolor.DarkenInPlace reads the factor from the noise image. The as-written version is Recolor.DarkenInPlaceAsWritten (see Findings).
- Room.DrawRoom requires width and length of at most 20, the size of the static table. Larger arguments index past the table in the C.
- `player_movement` in `src/main.c`: only the rotation choice (Room.TurnRotation) is modelled. The rest is a normalise and a camera call.
- The `short` cast in the violet loop is written as truncation and then storage into a byte. Values are never negative with a unit-range normalisation, but the model does not assume that.

## Findings

| source | as written | input that shows it | evidently intended | confidence | as-written member | corrected member |
|---|---|---|---|---|---|---|
| terrain/main.c:441 | `blocks[count++]` places a block with no check of the 1024-slot capacity | 1025 left clicks that each hit something: the last writes `blocks[1024]` | stop placing when the array is full | not executed | Blocks.PlaceAsWritten, Blocks.UncheckedPlacementOverflows | Blocks.BlockStore.Place |
| src/terrain/janperlin.c:22 | the darkening factor is read from `image_pixels`, so the noise pixels are loaded but never used | a black noise pixel over a white image pixel stays white instead of becoming (30, 30, 30) | read the factor from `noise_pixels`, as terrain/jan_terrain.c:51 does | not executed | Recolor.DarkenInPlaceAsWritten, Recolor.DarkenInPlaceIgnoresNoise | Recolor.DarkenInPlace |
| video_mesh.py:111-114 | the z wall is tested only in the `elif`, after the x test failed, so a step leaving through both walls keeps its z part | at position (320, 0, 320) the step (1, 0, 1) ends at z = 321, outside the wall | test both walls, each removing its own component | not executed | VideoCamera.WallClampAsWritten, VideoCamera.WallClampCornerEscape | VideoCamera.WallClamp, VideoCamera.WallClampKeepsInside |
